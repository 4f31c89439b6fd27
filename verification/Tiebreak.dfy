/** Which of two opposite dials survives, told by the steps of a run and by what a read loop has heard. */
module Tiebreak {
  import opened NodeIds
  import opened PeerTable
  import opened Dialing

  // ---------- runs in which nothing but dials, handshakes and ends of loops happens ----------

  ghost predicate AllOrdinary(steps: seq<Step>) {
    forall i :: 0 <= i < |steps| ==> Ordinary(steps[i])
  }

  /** The smaller id's connection: its out end is deaf and holds the entry for as long as it lives; its in
      end, once registered, holds the other entry; and it is lost exactly when the in end is over. */
  ghost predicate WinnerConn(s: Net, a: NodeId, b: NodeId, c: nat) {
    c < |s.conns| && s.conns[c].Links(a, b) ==>
      var k := s.conns[c];
      && (k.inn.Ended? <==> c in s.lost)
      && (k.out.Ended? ==> k.inn.Ended?)
      && (k.out.Registered? ==> k.out == Registered(false) && (a, b) !in s.dialing && Holds(s, a, b, c))
      && (k.inn.Registered? ==> Holds(s, b, a, c))
  }

  ghost predicate WinnerInv(s: Net, a: NodeId, b: NodeId) {
    s.stopped == {} && s.dialing[(a, b)] <= 1 && forall c :: WinnerConn(s, a, b, c)
  }

  /** At most one connection from the smaller to the larger id has a live end. */
  lemma OneLiveWinner(s: Net, a: NodeId, b: NodeId, c: nat, d: nat)
    requires Shaped(s) && WinnerInv(s, a, b) && c < |s.conns| && d < |s.conns|
    requires s.conns[c].Links(a, b) && s.conns[d].Links(a, b)
    requires !s.conns[c].inn.Ended? && !s.conns[d].inn.Ended?
    ensures c == d
  {
    assert WinnerConn(s, a, b, c) && WinnerConn(s, a, b, d);
  }

  lemma DialKeepsWinner(s: Net, step: Step, a: NodeId, b: NodeId, c: nat)
    requires Inv(s) && WinnerInv(s, a, b) && Less(a.ToFull(), b.ToFull()) && Enabled(s, step) && Once(s, step, a, b)
    requires step.Check? || step.Insert? || step.Accept?
    ensures WinnerConn(Apply(s, step), a, b, c)
  {
    assert WinnerConn(s, a, b, c);
    if step.Insert? {
      InsertKeepsWinner(s, step.a, step.b, a, b, c);
    }
  }

  lemma InsertKeepsWinner(s: Net, x: NodeId, y: NodeId, a: NodeId, b: NodeId, c: nat)
    requires Inv(s) && WinnerInv(s, a, b) && Less(a.ToFull(), b.ToFull()) && Enabled(s, Insert(x, y))
    ensures WinnerConn(Apply(s, Insert(x, y)), a, b, c)
  {
    LessIsTotal(a.ToFull(), b.ToFull());
    assert WinnerConn(s, a, b, c);
    if (x, y) == (a, b) && c < |s.conns| && s.conns[c].Links(a, b) {
      assert s.conns[c].out.Ended?;
    }
  }

  lemma HandshakeKeepsWinner(s: Net, i: nat, a: NodeId, b: NodeId, c: nat)
    requires Inv(s) && WinnerInv(s, a, b) && Less(a.ToFull(), b.ToFull()) && Enabled(s, Handshake(i, true))
    ensures WinnerConn(Apply(s, Handshake(i, true)), a, b, c)
  {
    LessIsTotal(a.ToFull(), b.ToFull());
    assert WinnerConn(s, a, b, c) && WinnerConn(s, a, b, i);
    if c < |s.conns| && s.conns[c].Links(a, b) && s.conns[i].Links(a, b) && s.conns[c].inn.Registered? {
      OneLiveWinner(s, a, b, c, i);
    }
  }

  /** The only way the winner's own loops can end: in end first, on a broadcast; then out end, on the EOF. */
  lemma WinnerEndsByHearing(s: Net, c: nat, side: Side, cause: Cause, a: NodeId, b: NodeId)
    requires Inv(s) && WinnerInv(s, a, b) && Enabled(s, LoopEnds(c, side, cause)) && !cause.Failure? &&
             s.conns[c].Links(a, b)
    ensures if side.In? then cause.Broadcast? && s.conns[c].inn == Registered(true)
            else cause.Eof? && s.conns[c].inn.Ended?
  {
    assert WinnerConn(s, a, b, c);
  }

  lemma OwnEndKeepsWinner(s: Net, i: nat, side: Side, cause: Cause, a: NodeId, b: NodeId, c: nat)
    requires Inv(s) && WinnerInv(s, a, b) && Enabled(s, LoopEnds(i, side, cause)) && !cause.Failure? &&
             s.conns[i].Links(a, b)
    ensures WinnerConn(Apply(s, LoopEnds(i, side, cause)), a, b, c)
  {
    WinnerEndsByHearing(s, i, side, cause, a, b);
    assert WinnerConn(s, a, b, c) && WinnerConn(s, a, b, i);
  }

  lemma OtherEndKeepsWinner(s: Net, i: nat, side: Side, cause: Cause, a: NodeId, b: NodeId, c: nat)
    requires Inv(s) && WinnerInv(s, a, b) && Enabled(s, LoopEnds(i, side, cause)) && !s.conns[i].Links(a, b)
    ensures WinnerConn(Apply(s, LoopEnds(i, side, cause)), a, b, c)
  {
    assert WinnerConn(s, a, b, c);
    if c < |s.conns| && s.conns[c].Links(a, b) {
      LoopEndsSparesOthers(s, i, side, cause, a, b, c);
      LoopEndsSparesOthers(s, i, side, cause, b, a, c);
      HolderHearsNothing(s, i, side, cause, c);
    }
  }

  /** A loop whose peer's entry is its own connection hears nothing from the end of another loop. */
  lemma HolderHearsNothing(s: Net, i: nat, side: Side, cause: Cause, c: nat)
    requires Shaped(s) && i < |s.conns| && c < |s.conns| && i != c
    ensures var k, t := s.conns[c], ApplyLoopEnds(s, i, side, cause);
            && t.conns[c].Links(k.dialer, k.acceptor)
            && (Holds(s, k.dialer, k.acceptor, c) ==> t.conns[c].out == k.out)
  {
  }

  lemma StepKeepsWinner(s: Net, step: Step, a: NodeId, b: NodeId)
    requires Inv(s) && WinnerInv(s, a, b) && Less(a.ToFull(), b.ToFull()) && Enabled(s, step) && Ordinary(step)
    requires Once(s, step, a, b)
    ensures WinnerInv(Apply(s, step), a, b)
  {
    OneStaysOne(s, step, a, b);
    forall c
      ensures WinnerConn(Apply(s, step), a, b, c)
    {
      match step {
        case Handshake(i, _) => HandshakeKeepsWinner(s, i, a, b, c);
        case LoopEnds(i, side, cause) =>
          if s.conns[i].Links(a, b) {
            OwnEndKeepsWinner(s, i, side, cause, a, b, c);
          } else {
            OtherEndKeepsWinner(s, i, side, cause, a, b, c);
          }
        case _ => DialKeepsWinner(s, step, a, b, c);
      }
    }
  }

  lemma {:induction false} OrdinaryRunKeepsWinner(s: Net, steps: seq<Step>, a: NodeId, b: NodeId)
    requires Inv(s) && WinnerInv(s, a, b) && Less(a.ToFull(), b.ToFull()) && Legal(s, steps) && AllOrdinary(steps)
    requires OneDial(s, steps, a, b)
    ensures Inv(Run(s, steps)) && WinnerInv(Run(s, steps), a, b)
    decreases |steps|
  {
    if steps != [] {
      StepKeepsInv(s, steps[0]);
      StepKeepsWinner(s, steps[0], a, b);
      OrdinaryRunKeepsWinner(Apply(s, steps[0]), steps[1..], a, b);
    }
  }

  // ---------- what makes the winner fall ----------

  /** The smaller id's connection is lost only by its in end's own loop, and only because that loop has heard
      a `PeerDisconnected`. */
  lemma LostOnlyByHearing(steps: seq<Step>, step: Step, a: NodeId, b: NodeId, c: nat)
    requires Legal(Start(), steps) && AllOrdinary(steps) && Less(a.ToFull(), b.ToFull())
    requires OneDial(Start(), steps, a, b)
    requires Enabled(Run(Start(), steps), step) && Ordinary(step)
    requires Once(Run(Start(), steps), step, a, b)
    requires var s := Run(Start(), steps); c < |s.conns| && s.conns[c].Links(a, b) && c !in s.lost
    requires c in Apply(Run(Start(), steps), step).lost
    ensures step == LoopEnds(c, In, Broadcast) && Run(Start(), steps).conns[c].inn == Registered(true)
  {
    var s := Run(Start(), steps);
    OrdinaryRunKeepsWinner(Start(), steps, a, b);
    StepKeepsWinner(s, step, a, b);
    assert WinnerConn(s, a, b, c) && WinnerConn(Apply(s, step), a, b, c);
    if step.LoopEnds? && s.conns[step.c].Links(a, b) {
      WinnerEndsByHearing(s, step.c, step.side, step.cause, a, b);
    }
  }

  lemma UnheardStep(s: Net, step: Step, a: NodeId, b: NodeId, c: nat)
    requires Inv(s) && WinnerInv(s, a, b) && Less(a.ToFull(), b.ToFull()) && Enabled(s, step) && Ordinary(step)
    requires c < |s.conns| && s.conns[c].Links(a, b) && s.conns[c].inn == Registered(false)
    ensures Apply(s, step).conns[c].Links(a, b) && Apply(s, step).conns[c].inn == Registered(false)
  {
    assert WinnerConn(s, a, b, c);
    if step.LoopEnds? && s.conns[step.c].Links(a, b) {
      WinnerEndsByHearing(s, step.c, step.side, step.cause, a, b);
      assert WinnerConn(s, a, b, step.c);
    }
  }

  /** Registered without having heard, the smaller id's connection never hears again, is never lost and
      stays with both ends. */
  lemma {:induction false} UnheardStaysHeld(s: Net, steps: seq<Step>, a: NodeId, b: NodeId, c: nat)
    requires Inv(s) && WinnerInv(s, a, b) && Less(a.ToFull(), b.ToFull()) && Legal(s, steps) && AllOrdinary(steps)
    requires c < |s.conns| && s.conns[c].Links(a, b) && s.conns[c].inn == Registered(false) && OneDial(s, steps, a, b)
    ensures c !in Run(s, steps).lost && BothHold(Run(s, steps), a, b, c)
    decreases |steps|
  {
    if steps == [] {
      assert WinnerConn(s, a, b, c);
    } else {
      StepKeepsInv(s, steps[0]);
      StepKeepsWinner(s, steps[0], a, b);
      UnheardStep(s, steps[0], a, b, c);
      UnheardStaysHeld(Apply(s, steps[0]), steps[1..], a, b, c);
    }
  }

  /** In every ordinary run, a registered connection of the smaller id can still be lost by ordinary steps if
      and only if its loop heard a `PeerDisconnected` before it registered. */
  lemma LosableIffHeard(steps: seq<Step>, a: NodeId, b: NodeId, c: nat)
    requires Legal(Start(), steps) && AllOrdinary(steps) && Less(a.ToFull(), b.ToFull())
    requires OneDial(Start(), steps, a, b)
    requires var s := Run(Start(), steps); c < |s.conns| && s.conns[c].Links(a, b) && s.conns[c].inn.Registered?
    ensures var s := Run(Start(), steps);
            (exists more :: Legal(s, more) && AllOrdinary(more) && OneDial(s, more, a, b) && c in Run(s, more).lost)
            <==> s.conns[c].inn.heard
  {
    var s := Run(Start(), steps);
    OrdinaryRunKeepsWinner(Start(), steps, a, b);
    if s.conns[c].inn.heard {
      var more := [LoopEnds(c, In, Broadcast)];
      assert more[1..] == [];
      var t := Apply(s, more[0]);
      assert Legal(t, []) && Run(t, []) == t && OneDial(t, [], a, b);
      assert Legal(s, more) && Run(s, more) == t && OneDial(s, more, a, b);
      assert AllOrdinary(more) && c in Run(s, more).lost;
    } else {
      forall more | Legal(s, more) && AllOrdinary(more) && OneDial(s, more, a, b)
        ensures c !in Run(s, more).lost
      {
        UnheardStaysHeld(s, more, a, b, c);
      }
    }
  }

  // ---------- simultaneous dials, without broadcasts ----------

  /** Dials, handshakes, refusals by the tiebreak and ends of loops on EOF. */
  predicate Calm(step: Step) {
    Ordinary(step) && !(step.LoopEnds? && step.cause.Broadcast?)
  }

  ghost predicate AllCalm(steps: seq<Step>) {
    forall i :: 0 <= i < |steps| ==> Calm(steps[i])
  }

  ghost predicate AllPending(steps: seq<Step>) {
    forall i :: 0 <= i < |steps| ==> IsPendingWork(steps[i])
  }

  lemma {:induction false} CalmLosesNothing(s: Net, steps: seq<Step>)
    requires Legal(s, steps) && AllCalm(steps) && s.lost == {} && s.stopped == {}
    ensures Run(s, steps).lost == {} && Run(s, steps).stopped == {}
    decreases |steps|
  {
    if steps != [] {
      assert Calm(steps[0]);
      CalmLosesNothing(Apply(s, steps[0]), steps[1..]);
    }
  }

  /** What the pair should end up with: one connection on both ends, the smaller id's dial if it got past its
      check, otherwise the other's, and none when nobody dialed. */
  ghost predicate Agreed(s: Net, a: NodeId, b: NodeId) {
    if (a, b) in s.passed then exists c :: BothHold(s, a, b, c)
    else if (b, a) in s.passed then exists c :: BothHold(s, b, a, c)
    else b !in PeersOf(s, a) && a !in PeersOf(s, b)
  }

  /** For any number of nodes, at most one dial under way from either of the two to the other, and every
      interleaving of checks, inserts, handshakes, refusals and EOFs: the pair has agreed on one connection, or
      there is something left to do for it, and whatever is left to do ends after boundedly many steps. */
  lemma {:induction false} SimultaneousDial(steps: seq<Step>, a: NodeId, b: NodeId)
    requires Legal(Start(), steps) && AllCalm(steps) && a != b && Less(a.ToFull(), b.ToFull())
    requires OneDial(Start(), steps, a, b) && OneDial(Start(), steps, b, a)
    ensures var s := Run(Start(), steps);
            && (if Settled(s, a, b) then Agreed(s, a, b)
                else exists step :: Enabled(s, step) && Calm(step) && IsPendingWork(step))
            && forall more :: Legal(s, more) && AllPending(more) ==> |more| <= Work(s)
  {
    var s := Run(Start(), steps);
    LessIsTotal(a.ToFull(), b.ToFull());
    CalmLosesNothing(Start(), steps);
    if Settled(s, a, b) {
      PrevailingDialSurvives(steps, a, b);
      PrevailingDialSurvives(steps, b, a);
    } else {
      var step := UnsettledCanMove(steps, a, b);
    }
    forall more | Legal(s, more) && AllPending(more)
      ensures |more| <= Work(s)
    {
      PendingWorkEnds(s, more);
    }
  }

  // ---------- what the check at the start of a dial is worth ----------

  /** While `a` dials `b`, an entry `a` gets for `b` is a connection that `b` dialed. */
  ghost predicate OnlyInbound(s: Net, a: NodeId, b: NodeId) {
    (a, b) in s.dialing && b in PeersOf(s, a) ==>
      PeersOf(s, a)[b] < |s.conns| && s.conns[PeersOf(s, a)[b]].Links(b, a)
  }

  lemma {:induction false} StepKeepsInbound(s: Net, step: Step, a: NodeId, b: NodeId)
    requires Inv(s) && Enabled(s, step) && Once(s, step, a, b) && s.dialing[(a, b)] <= 1 && OnlyInbound(s, a, b)
    ensures OnlyInbound(Apply(s, step), a, b)
  {
    assert Served(s, a, b);
    match step {
      case Handshake(c, authentic) => HandshakeKeepsInbound(s, c, authentic, a, b);
      case LoopEnds(c, side, cause) => LoopEndsKeepsInbound(s, c, side, cause, a, b);
      case _ =>
    }
  }

  lemma HandshakeKeepsInbound(s: Net, c: nat, authentic: bool, a: NodeId, b: NodeId)
    requires Shaped(s) && c < |s.conns| && s.conns[c].inn.Waiting? && OnlyInbound(s, a, b)
    ensures OnlyInbound(ApplyHandshake(s, c, authentic), a, b)
  {
  }

  lemma LoopEndsKeepsInbound(s: Net, c: nat, side: Side, cause: Cause, a: NodeId, b: NodeId)
    requires c < |s.conns| && OnlyInbound(s, a, b)
    ensures OnlyInbound(ApplyLoopEnds(s, c, side, cause), a, b)
  {
  }

  lemma {:induction false} RunKeepsInbound(s: Net, steps: seq<Step>, a: NodeId, b: NodeId)
    requires Inv(s) && Legal(s, steps) && OneDial(s, steps, a, b) && s.dialing[(a, b)] <= 1 && OnlyInbound(s, a, b)
    ensures OnlyInbound(Run(s, steps), a, b)
    decreases |steps|
  {
    if steps != [] {
      StepKeepsInbound(s, steps[0], a, b);
      OneStaysOne(s, steps[0], a, b);
      StepKeepsInv(s, steps[0]);
      RunKeepsInbound(Apply(s, steps[0]), steps[1..], a, b);
    }
  }

  /** In every run: a dial that got past its check is dropped at its insert only in favour of a live connection,
      and only by the larger id; unless that id had two dials of the peer under way, the connection is one
      which the peer itself dialed. */
  lemma {:induction false} RefusedDialLostToPeer(steps: seq<Step>, a: NodeId, b: NodeId)
    requires Legal(Start(), steps)
    requires var s := Run(Start(), steps); (a, b) in s.dialing && !Keeps(a, PeersOf(s, a), b, true)
    ensures var s := Run(Start(), steps);
            && PeersOf(Apply(s, Insert(a, b)), a) == PeersOf(s, a)
            && var c := PeersOf(s, a)[b];
            && c < |s.conns| && s.conns[c].Serves(a, b) && !Less(a.ToFull(), b.ToFull())
            && (OneDial(Start(), steps, a, b) ==> s.conns[c].Links(b, a) && s.conns[c].inn.Registered?)
  {
    RunKeepsInv(Start(), steps);
    assert Served(Run(Start(), steps), a, b);
    if OneDial(Start(), steps, a, b) {
      RunKeepsInbound(Start(), steps, a, b);
    }
  }

  // ---------- forgetting a peer ----------

  lemma {:induction false} GoneForever(s: Net, steps: seq<Step>, c: nat, side: Side)
    requires Inv(s) && Legal(s, steps) && Gone(s, c, side)
    ensures Inv(Run(s, steps)) && Gone(Run(s, steps), c, side)
    ensures var k := Run(s, steps).conns[c]; !Holds(Run(s, steps), k.Home(side), k.Away(side), c)
    decreases |steps|
  {
    if steps == [] {
      assert Served(s, s.conns[c].Home(side), s.conns[c].Away(side));
    } else {
      GoneIsStable(s, steps[0], c, side);
      StepKeepsInv(s, steps[0]);
      GoneForever(Apply(s, steps[0]), steps[1..], c, side);
    }
  }

  /** Which end of the connection that `n` holds for `p` is at `n`. */
  function SideAt(k: Conn, n: NodeId): Side {
    if k.dialer == n then Out else In
  }

  /** The loop of a forgotten connection has been told to end, and then the other end reads the EOF. */
  lemma ForgottenCanEnd(s: Net, n: NodeId, p: NodeId)
    requires Inv(s) && p in PeersOf(s, n)
    ensures var c := PeersOf(s, n)[p];
            c < |s.conns| &&
            var side, t := SideAt(s.conns[c], n), Apply(s, Forget(n, p));
            && p !in PeersOf(t, n) && Gone(t, c, side)
            && s.conns[c].Home(side) == n && s.conns[c].Away(side) == p && Enabled(t, LoopEnds(c, side, Broadcast))
  {
    assert Served(s, n, p);
  }

  lemma OtherEndLetsGo(s: Net, c: nat, side: Side)
    requires c < |s.conns| && Enabled(s, LoopEnds(c, side, Broadcast)) && s.conns[c].dialer != s.conns[c].acceptor
    requires s.conns[c].Of(Other(side)).Registered?
    ensures var t := Apply(s, LoopEnds(c, side, Broadcast));
            && Enabled(t, LoopEnds(c, Other(side), Eof))
            && !Holds(Apply(t, LoopEnds(c, Other(side), Eof)), s.conns[c].Away(side), s.conns[c].Home(side), c)
  {
  }

  /** `forget_peer` drops the connection now: its loop has been told to end, the other end then reads the EOF
      and lets go of it as well, and in no continuation does this node hold it again. */
  lemma {:induction false} ForgetDropsConnection(steps: seq<Step>, n: NodeId, p: NodeId, more: seq<Step>)
    requires Legal(Start(), steps) && p in PeersOf(Run(Start(), steps), n)
    requires Legal(Apply(Run(Start(), steps), Forget(n, p)), more)
    ensures var s := Run(Start(), steps);
            var c := PeersOf(s, n)[p];
            c < |s.conns| &&
            var side, t := SideAt(s.conns[c], n), Apply(s, Forget(n, p));
            && p !in PeersOf(t, n)
            && Enabled(t, LoopEnds(c, side, Broadcast))
            && (s.conns[c].Of(Other(side)).Registered? ==>
                  var u := Apply(t, LoopEnds(c, side, Broadcast));
                  && Enabled(u, LoopEnds(c, Other(side), Eof))
                  && !Holds(Apply(u, LoopEnds(c, Other(side), Eof)), p, n, c))
            && !Holds(Run(t, more), n, p, c)
  {
    var s := Run(Start(), steps);
    RunKeepsInv(Start(), steps);
    ForgottenCanEnd(s, n, p);
    var c := PeersOf(s, n)[p];
    var side, t := SideAt(s.conns[c], n), Apply(s, Forget(n, p));
    if s.conns[c].Of(Other(side)).Registered? {
      OtherEndLetsGo(t, c, side);
    }
    StepKeepsInv(s, Forget(n, p));
    GoneForever(t, more, c, side);
    KeepsItsEnds(t, more, c);
  }

  lemma {:induction false} KeepsItsEnds(s: Net, steps: seq<Step>, c: nat)
    requires Legal(s, steps) && c < |s.conns|
    ensures c < |Run(s, steps).conns| && Run(s, steps).conns[c].Links(s.conns[c].dialer, s.conns[c].acceptor)
    decreases |steps|
  {
    if steps != [] {
      KeepsItsEnds(Apply(s, steps[0]), steps[1..], c);
    }
  }

  // ---------- shutting down ----------

  /** After `shutdown` a step connects the node to `p` if and only if it is the node's own dial of `p`, which
      does not look whether the node has stopped; no handshake still under way does. */
  lemma StoppedConnectsIffDials(s: Net, step: Step, n: NodeId, p: NodeId)
    requires Enabled(s, step) && n in s.stopped && p !in PeersOf(s, n)
    ensures p in PeersOf(Apply(s, step), n) <==> step == Insert(n, p)
    ensures n in Apply(s, step).stopped
  {
  }

  /** Over every run after a shutdown: whoever the node is connected to, it has dialed since. */
  lemma {:induction false} ShutdownKeepsInboundOut(s: Net, steps: seq<Step>, n: NodeId, p: NodeId)
    requires Legal(s, steps) && n in s.stopped && p !in PeersOf(s, n) && p in PeersOf(Run(s, steps), n)
    ensures Insert(n, p) in steps
    decreases |steps|
  {
    StoppedConnectsIffDials(s, steps[0], n, p);
    if steps[0] != Insert(n, p) {
      ShutdownKeepsInboundOut(Apply(s, steps[0]), steps[1..], n, p);
    }
  }

  /** A dial under way survives the shutdown: the stopped node ends up connected. */
  lemma DialOutlivesShutdown(a: NodeId, b: NodeId) returns (steps: seq<Step>)
    requires a != b
    ensures Legal(Start(), steps)
    ensures var s := Run(Start(), steps); a in s.stopped && b in PeersOf(s, a)
  {
    steps := [Check(a, b), Shutdown(a), Insert(a, b)];
    var s1 := Apply(Start(), Check(a, b));
    var s2 := Apply(s1, Shutdown(a));
    assert Legal(Apply(s2, Insert(a, b)), []);
    assert steps[1..] == [Shutdown(a), Insert(a, b)] && steps[1..][1..] == [Insert(a, b)] && steps[1..][1..][1..] == [];
    var s3 := Apply(s2, Insert(a, b));
    assert Legal(s2, [Insert(a, b)]) && Run(s2, [Insert(a, b)]) == s3;
    assert Legal(s1, steps[1..]) && Run(s1, steps[1..]) == s3;
    StoppedConnectsIffDials(s2, Insert(a, b), a, b);
  }

  // ---------- with failures, an older handshake can unseat a newer connection ----------

  /** `A`'s first connection breaks on its side before `B` reads its handshake; `A` dials again, and `B` reads
      the newer handshake first. */
  function StaleRace(): seq<Step> {
    [Check(A, B), Insert(A, B), Accept(0), LoopEnds(0, Out, Failure), Check(A, B), Insert(A, B), Accept(1),
     Handshake(1, true), Handshake(0, true), LoopEnds(0, In, Eof)]
  }

  function Stale(pa: Peers, pb: Peers, in0: End, in1: End): Net {
    Net(map[A := pa, B := pb], {}, multiset{}, {(A, B)}, [Conn(A, B, Ended, in0), Conn(A, B, Registered(false), in1)],
        {0})
  }

  function StaleStates(): seq<Net> {
    var reg, wait := Registered(false), Waiting(false);
    [Start(),
     Net(map[], {}, multiset{(A, B)}, {(A, B)}, [], {}),
     Net(map[A := map[B := 0]], {}, multiset{}, {(A, B)}, [Conn(A, B, reg, Pending)], {}),
     Net(map[A := map[B := 0]], {}, multiset{}, {(A, B)}, [Conn(A, B, reg, wait)], {}),
     Net(map[A := map[]], {}, multiset{}, {(A, B)}, [Conn(A, B, Ended, wait)], {0}),
     Net(map[A := map[]], {}, multiset{(A, B)}, {(A, B)}, [Conn(A, B, Ended, wait)], {0}),
     Net(map[A := map[B := 1]], {}, multiset{}, {(A, B)}, [Conn(A, B, Ended, wait), Conn(A, B, reg, Pending)], {0}),
     Net(map[A := map[B := 1]], {}, multiset{}, {(A, B)}, [Conn(A, B, Ended, wait), Conn(A, B, reg, wait)], {0}),
     Stale(map[B := 1], map[A := 1], wait, reg),
     Stale(map[B := 1], map[A := 0], reg, reg),
     Stale(map[B := 1], map[], Ended, Registered(true))]
  }

  lemma StaleBegins()
    ensures forall i :: 0 <= i < 2 ==> Leads(StaleStates()[i], StaleRace()[i], StaleStates()[i + 1])
  {
    SmallerId();
  }

  lemma StaleBreaks()
    ensures forall i :: 2 <= i < 4 ==> Leads(StaleStates()[i], StaleRace()[i], StaleStates()[i + 1])
  {
  }

  lemma StaleGoesOn()
    ensures forall i :: 4 <= i < 7 ==> Leads(StaleStates()[i], StaleRace()[i], StaleStates()[i + 1])
  {
    SmallerId();
  }

  lemma StaleRegisters()
    ensures Leads(StaleStates()[7], StaleRace()[7], StaleStates()[8])
  {
    SmallerId();
    assert Apply(StaleStates()[7], StaleRace()[7]).peers == StaleStates()[8].peers;
  }

  lemma StaleUnseats()
    ensures Leads(StaleStates()[8], StaleRace()[8], StaleStates()[9])
  {
    SmallerId();
    assert PeersOf(StaleStates()[8], B)[A := 0] == map[A := 0];
    assert Apply(StaleStates()[8], StaleRace()[8]).peers == StaleStates()[9].peers;
  }

  lemma StaleEnds()
    ensures Leads(StaleStates()[9], StaleRace()[9], StaleStates()[10])
    ensures var s := StaleStates()[10]; Settled(s, A, B) && B in PeersOf(s, A) && A !in PeersOf(s, B)
  {
  }

  lemma WholeStale() returns (states: seq<Net>, steps: seq<Step>)
    ensures |states| == 11 && |steps| == 10 && states[0] == Start()
    ensures forall i :: 0 <= i < 10 ==> Leads(states[i], steps[i], states[i + 1])
    ensures forall i :: 0 <= i < 10 && steps[i] == Check(A, B) ==> (A, B) !in states[i].dialing
    ensures var s := states[10];
            && Settled(s, A, B) && |s.conns| == 2 && s.conns[1].Links(A, B) && 1 !in s.lost
            && Holds(s, A, B, 1) && A !in PeersOf(s, B)
  {
    StaleBegins();
    StaleBreaks();
    StaleGoesOn();
    StaleRegisters();
    StaleUnseats();
    StaleEnds();
    states, steps := StaleStates(), StaleRace();
  }

  /** Settled, the smaller id's newer connection never lost, and yet only one end holds it. */
  lemma StaleHandshakeUnseatsNewer() returns (steps: seq<Step>)
    ensures Legal(Start(), steps) && OneDial(Start(), steps, A, B)
    ensures var s := Run(Start(), steps);
            && Settled(s, A, B) && |s.conns| == 2 && s.conns[1].Links(A, B) && 1 !in s.lost
            && Holds(s, A, B, 1) && A !in PeersOf(s, B)
  {
    var states: seq<Net>;
    states, steps := WholeStale();
    FollowStates(states, steps);
    FollowOnce(states, steps, A, B);
  }
}
