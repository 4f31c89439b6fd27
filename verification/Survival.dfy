/** When exactly the smaller id's connection survives, over all runs: failures, forgets, shutdowns and any number
    of dials at a time included. */
module Survival {
  import opened NodeIds
  import opened PeerTable
  import opened Dialing
  import opened Tiebreak

  // ---------- what is not lost stands ----------

  /** A connection of the smaller id that was not lost has none of its ends behind it. */
  ghost predicate Standing(s: Net, a: NodeId, b: NodeId, c: nat) {
    c < |s.conns| && s.conns[c].Links(a, b) && c !in s.lost ==> !s.conns[c].out.Ended? && !s.conns[c].inn.Ended?
  }

  lemma {:induction false} LostGrowsOverRun(s: Net, steps: seq<Step>)
    requires Legal(s, steps)
    ensures s.lost <= Run(s, steps).lost
    decreases |steps|
  {
    if steps != [] {
      HistoryGrows(s, steps[0]);
      LostGrowsOverRun(Apply(s, steps[0]), steps[1..]);
    }
  }

  lemma StepKeepsStanding(s: Net, step: Step, a: NodeId, b: NodeId, c: nat)
    requires Less(a.ToFull(), b.ToFull()) && Enabled(s, step) && Standing(s, a, b, c)
    ensures Standing(Apply(s, step), a, b, c)
  {
  }

  lemma {:induction false} RunKeepsStanding(s: Net, steps: seq<Step>, a: NodeId, b: NodeId, c: nat)
    requires Less(a.ToFull(), b.ToFull()) && Legal(s, steps) && Standing(s, a, b, c)
    ensures Standing(Run(s, steps), a, b, c)
    decreases |steps|
  {
    if steps != [] {
      StepKeepsStanding(s, steps[0], a, b, c);
      RunKeepsStanding(Apply(s, steps[0]), steps[1..], a, b, c);
    }
  }

  // ---------- the steps that unseat a connection ----------

  /** The larger id reads an acceptable handshake of another connection from the smaller one. */
  predicate Supersedes(s: Net, step: Step, a: NodeId, b: NodeId, c: nat) {
    && step.Handshake? && step.c != c && step.c < |s.conns| && s.conns[step.c].Links(a, b)
    && step.authentic && b !in s.stopped
  }

  /** `c` exists and another dial of the smaller id inserts, or `c` is registered already and superseded. */
  predicate Unseats(s: Net, step: Step, a: NodeId, b: NodeId, c: nat) {
    && c < |s.conns| && s.conns[c].Links(a, b)
    && (step == Insert(a, b) || (s.conns[c].inn.Registered? && Supersedes(s, step, a, b, c)))
  }

  function SideOf(step: Step): Side {
    if step.Insert? then Out else In
  }

  lemma UnseatingUnseats(s: Net, step: Step, a: NodeId, b: NodeId, c: nat)
    requires Inv(s) && Less(a.ToFull(), b.ToFull()) && Enabled(s, step) && Unseats(s, step, a, b, c)
    requires !s.conns[c].out.Ended?
    ensures Gone(Apply(s, step), c, SideOf(step)) && !BothHold(Apply(s, step), a, b, c)
  {
  }

  lemma HandshakeKeepsHolds(s: Net, i: nat, authentic: bool, a: NodeId, b: NodeId, c: nat)
    requires Shaped(s) && Less(a.ToFull(), b.ToFull()) && Enabled(s, Handshake(i, authentic))
    requires c < |s.conns| && s.conns[c].Links(a, b)
    ensures var t := Apply(s, Handshake(i, authentic));
            && (Holds(s, a, b, c) ==> Holds(t, a, b, c))
            && (Holds(s, b, a, c) && !Supersedes(s, Handshake(i, authentic), a, b, c) ==> Holds(t, b, a, c))
  {
    LessIsTotal(a.ToFull(), b.ToFull());
  }

  lemma LoopEndsKeepsHolds(s: Net, i: nat, side: Side, cause: Cause, a: NodeId, b: NodeId, c: nat)
    requires Enabled(s, LoopEnds(i, side, cause)) && c < |s.conns| && s.conns[c].Links(a, b)
    requires !s.conns[c].out.Ended? && !s.conns[c].inn.Ended? && c !in Apply(s, LoopEnds(i, side, cause)).lost
    ensures var t := Apply(s, LoopEnds(i, side, cause));
            (Holds(s, a, b, c) ==> Holds(t, a, b, c)) && (Holds(s, b, a, c) ==> Holds(t, b, a, c))
  {
    if i != c {
      LoopEndsSparesOthers(s, i, side, cause, a, b, c);
      LoopEndsSparesOthers(s, i, side, cause, b, a, c);
    }
  }

  lemma StepKeepsHolds(s: Net, step: Step, a: NodeId, b: NodeId, c: nat)
    requires Inv(s) && Less(a.ToFull(), b.ToFull()) && Enabled(s, step) && step != Insert(a, b)
    requires c < |s.conns| && s.conns[c].Links(a, b) && !s.conns[c].out.Ended? && !s.conns[c].inn.Ended?
    requires c !in Apply(s, step).lost
    ensures var t := Apply(s, step);
            && (Holds(s, a, b, c) ==> Holds(t, a, b, c))
            && (Holds(s, b, a, c) && !Supersedes(s, step, a, b, c) ==> Holds(t, b, a, c))
  {
    match step {
      case Handshake(i, authentic) => HandshakeKeepsHolds(s, i, authentic, a, b, c);
      case LoopEnds(i, side, cause) => LoopEndsKeepsHolds(s, i, side, cause, a, b, c);
      case Insert(x, y) => InsertKeepsHolds(s, x, y, a, b, c);
      case _ =>
    }
  }

  lemma InsertKeepsHolds(s: Net, x: NodeId, y: NodeId, a: NodeId, b: NodeId, c: nat)
    requires Less(a.ToFull(), b.ToFull()) && Enabled(s, Insert(x, y)) && (x, y) != (a, b)
    ensures var t := Apply(s, Insert(x, y));
            (Holds(s, a, b, c) ==> Holds(t, a, b, c)) && (Holds(s, b, a, c) ==> Holds(t, b, a, c))
  {
    LessIsTotal(a.ToFull(), b.ToFull());
  }

  /** In every run: a connection of the smaller id that both ends hold, and that the step does not lose, is taken
      from them by the step if and only if the smaller id inserts another dial it had under way, or the larger
      id reads an acceptable handshake of another connection from the smaller one. */
  lemma UnseatedIffSuperseded(steps: seq<Step>, step: Step, a: NodeId, b: NodeId, c: nat)
    requires Legal(Start(), steps) && Less(a.ToFull(), b.ToFull()) && Enabled(Run(Start(), steps), step)
    requires BothHold(Run(Start(), steps), a, b, c) && c !in Apply(Run(Start(), steps), step).lost
    ensures var s := Run(Start(), steps);
            !BothHold(Apply(s, step), a, b, c) <==> step == Insert(a, b) || Supersedes(s, step, a, b, c)
  {
    var s := Run(Start(), steps);
    RunKeepsInv(Start(), steps);
    assert Served(s, a, b) && Served(s, b, a);
    KeepsLinks(s, step, c);
    if Unseats(s, step, a, b, c) {
      UnseatingUnseats(s, step, a, b, c);
    } else {
      StepKeepsHolds(s, step, a, b, c);
    }
  }

  // ---------- settled states ----------

  predicate NeverUnseated(s: Net, steps: seq<Step>, a: NodeId, b: NodeId, c: nat)
    requires Legal(s, steps)
    decreases |steps|
  {
    steps == [] ||
    (!Unseats(s, steps[0], a, b, c) && NeverUnseated(Apply(s, steps[0]), steps[1..], a, b, c))
  }

  /** The connection has the dialer's entry and, once registered, the acceptor's. */
  ghost predicate Seated(s: Net, a: NodeId, b: NodeId, c: nat) {
    c < |s.conns| && s.conns[c].Links(a, b) ==>
      Holds(s, a, b, c) && (s.conns[c].inn.Registered? ==> Holds(s, b, a, c))
  }

  lemma StepKeepsSeated(s: Net, step: Step, a: NodeId, b: NodeId, c: nat)
    requires Inv(s) && Standing(s, a, b, c) && Less(a.ToFull(), b.ToFull()) && Enabled(s, step)
    requires Seated(s, a, b, c) && !Unseats(s, step, a, b, c) && c !in Apply(s, step).lost
    ensures Seated(Apply(s, step), a, b, c)
  {
    HistoryGrows(s, step);
    if c < |s.conns| {
      KeepsLinks(s, step, c);
      if s.conns[c].Links(a, b) {
        StepKeepsHolds(s, step, a, b, c);
        if !s.conns[c].inn.Registered? {
          NewlyRegisteredHolds(s, step, c);
        }
      }
    } else if c < |Apply(s, step).conns| {
      OnlyInsertAdds(s, step, c);
    }
  }

  lemma NewlyRegisteredHolds(s: Net, step: Step, c: nat)
    requires Enabled(s, step) && c < |s.conns| && !s.conns[c].inn.Registered?
    ensures var k := s.conns[c];
            Apply(s, step).conns[c].inn.Registered? ==> Holds(Apply(s, step), k.acceptor, k.dialer, c)
  {
  }

  lemma {:induction false} HeldIffNeverUnseated(s: Net, steps: seq<Step>, a: NodeId, b: NodeId, c: nat)
    requires Inv(s) && Standing(s, a, b, c) && Less(a.ToFull(), b.ToFull()) && Legal(s, steps)
    requires Seated(s, a, b, c) && c !in Run(s, steps).lost
    requires c < |Run(s, steps).conns| && Run(s, steps).conns[c].Links(a, b) && Run(s, steps).conns[c].inn.Registered?
    ensures BothHold(Run(s, steps), a, b, c) <==> NeverUnseated(s, steps, a, b, c)
    decreases |steps|
  {
    if steps != [] {
      var t := Apply(s, steps[0]);
      StepKeepsInv(s, steps[0]);
      LostGrowsOverRun(t, steps[1..]);
      HistoryGrows(s, steps[0]);
      if Unseats(s, steps[0], a, b, c) {
        UnseatingUnseats(s, steps[0], a, b, c);
        GoneForever(t, steps[1..], c, SideOf(steps[0]));
      } else {
        StepKeepsStanding(s, steps[0], a, b, c);
        StepKeepsSeated(s, steps[0], a, b, c);
        HeldIffNeverUnseated(t, steps[1..], a, b, c);
      }
    }
  }

  /** In every run, whatever fails, is refused, forgotten or shut down, and however often anybody dials, also at
      the same time: a settled connection of the smaller id is held by both ends if and only if nothing but the
      tiebreak ever dropped it, no other dial of the smaller id inserted after its own, and no handshake of
      another connection from the smaller id was read after its own. */
  lemma WinnerHeldIff(steps: seq<Step>, a: NodeId, b: NodeId, c: nat)
    requires Legal(Start(), steps) && Less(a.ToFull(), b.ToFull())
    requires var s := Run(Start(), steps); Settled(s, a, b) && c < |s.conns| && s.conns[c].Links(a, b)
    ensures var s := Run(Start(), steps);
            BothHold(s, a, b, c) <==> c !in s.lost && NeverUnseated(Start(), steps, a, b, c)
  {
    var s := Run(Start(), steps);
    RunKeepsInv(Start(), steps);
    RunKeepsLostGone(Start(), steps);
    RunKeepsStanding(Start(), steps, a, b, c);
    assert Served(s, a, b) && Served(s, b, a);
    if c !in s.lost {
      HeldIffNeverUnseated(Start(), steps, a, b, c);
    }
  }

  /** Without failures, failed proofs, forgets, shutdowns and overlapping dials nobody is ever unseated. */
  lemma {:induction false} OrdinaryNeverUnseats(s: Net, steps: seq<Step>, a: NodeId, b: NodeId, c: nat)
    requires Inv(s) && WinnerInv(s, a, b) && Less(a.ToFull(), b.ToFull()) && Legal(s, steps) && AllOrdinary(steps)
    requires OneDial(s, steps, a, b) && c !in Run(s, steps).lost
    ensures NeverUnseated(s, steps, a, b, c)
    decreases |steps|
  {
    if steps != [] {
      LostGrowsOverRun(s, steps);
      assert WinnerConn(s, a, b, c);
      if Unseats(s, steps[0], a, b, c) && steps[0].Handshake? {
        OneLiveWinner(s, a, b, c, steps[0].c);
      }
      StepKeepsInv(s, steps[0]);
      StepKeepsWinner(s, steps[0], a, b);
      OrdinaryNeverUnseats(Apply(s, steps[0]), steps[1..], a, b, c);
    }
  }

  lemma OnlyInsertAdds(s: Net, step: Step, c: nat)
    requires Enabled(s, step) && |s.conns| <= c < |Apply(s, step).conns|
    ensures step.Insert? && Apply(s, step).conns[c] == Conn(step.a, step.b, Registered(false), Pending)
    ensures Holds(Apply(s, step), step.a, step.b, c)
  {
  }

  // ---------- overlapping dials ----------

  /** The entry of `n` for `p` is a connection dialed by `a` to `b`. */
  ghost predicate HasFrom(s: Net, n: NodeId, p: NodeId, a: NodeId, b: NodeId) {
    p in PeersOf(s, n) && PeersOf(s, n)[p] < |s.conns| && s.conns[PeersOf(s, n)[p]].Links(a, b)
  }

  ghost predicate CalmConn(s: Net, a: NodeId, b: NodeId, c: nat) {
    c < |s.conns| && s.conns[c].Links(a, b) ==>
      && s.conns[c].out.Registered? && !s.conns[c].inn.Ended?
      && HasFrom(s, a, b, a, b) && (s.conns[c].inn.Registered? ==> HasFrom(s, b, a, a, b))
  }

  ghost predicate CalmInv(s: Net, a: NodeId, b: NodeId) {
    && s.stopped == {} && (forall c :: CalmConn(s, a, b, c))
    && ((a, b) in s.passed ==> (a, b) in s.dialing || HasFrom(s, a, b, a, b))
  }

  lemma CalmKeepsFrom(s: Net, step: Step, a: NodeId, b: NodeId)
    requires Inv(s) && CalmInv(s, a, b) && Less(a.ToFull(), b.ToFull()) && a != b && Enabled(s, step) && Calm(step)
    ensures HasFrom(s, a, b, a, b) ==> HasFrom(Apply(s, step), a, b, a, b)
    ensures HasFrom(s, b, a, a, b) ==> HasFrom(Apply(s, step), b, a, a, b)
  {
    match step {
      case LoopEnds(i, side, cause) =>
        assert CalmConn(s, a, b, i);
        if HasFrom(s, a, b, a, b) {
          LoopEndsKeepsFrom(s, i, side, cause, a, b, a, b);
        }
        if HasFrom(s, b, a, a, b) {
          LoopEndsKeepsFrom(s, i, side, cause, b, a, a, b);
        }
      case Handshake(i, _) => HandshakeKeepsFrom(s, i, a, b);
      case Insert(x, y) => InsertKeepsFrom(s, x, y, a, b);
      case _ =>
    }
  }

  lemma LoopEndsKeepsFrom(s: Net, i: nat, side: Side, cause: Cause, n: NodeId, p: NodeId, a: NodeId, b: NodeId)
    requires i < |s.conns| && !s.conns[i].Links(a, b) && HasFrom(s, n, p, a, b)
    ensures HasFrom(ApplyLoopEnds(s, i, side, cause), n, p, a, b)
  {
    LoopEndsSparesOthers(s, i, side, cause, n, p, PeersOf(s, n)[p]);
  }

  lemma InsertKeepsFrom(s: Net, x: NodeId, y: NodeId, a: NodeId, b: NodeId)
    requires Less(a.ToFull(), b.ToFull()) && Enabled(s, Insert(x, y))
    ensures HasFrom(s, a, b, a, b) ==> HasFrom(Apply(s, Insert(x, y)), a, b, a, b)
    ensures HasFrom(s, b, a, a, b) ==> HasFrom(Apply(s, Insert(x, y)), b, a, a, b)
  {
    LessIsTotal(a.ToFull(), b.ToFull());
  }

  lemma HandshakeKeepsFrom(s: Net, i: nat, a: NodeId, b: NodeId)
    requires Shaped(s) && Less(a.ToFull(), b.ToFull()) && Enabled(s, Handshake(i, true))
    ensures HasFrom(s, a, b, a, b) ==> HasFrom(Apply(s, Handshake(i, true)), a, b, a, b)
    ensures HasFrom(s, b, a, a, b) ==> HasFrom(Apply(s, Handshake(i, true)), b, a, a, b)
  {
    LessIsTotal(a.ToFull(), b.ToFull());
  }

  lemma CalmKeepsConn(s: Net, step: Step, a: NodeId, b: NodeId, c: nat)
    requires Inv(s) && CalmInv(s, a, b) && Less(a.ToFull(), b.ToFull()) && a != b && Enabled(s, step) && Calm(step)
    ensures CalmConn(Apply(s, step), a, b, c)
  {
    CalmKeepsFrom(s, step, a, b);
    assert CalmConn(s, a, b, c);
    if c < |s.conns| {
      KeepsLinks(s, step, c);
      if s.conns[c].Links(a, b) {
        CalmKeepsEnds(s, step, a, b, c);
      }
    } else if c < |Apply(s, step).conns| {
      OnlyInsertAdds(s, step, c);
    }
  }

  lemma CalmKeepsEnds(s: Net, step: Step, a: NodeId, b: NodeId, c: nat)
    requires s.stopped == {} && CalmConn(s, a, b, c) && Less(a.ToFull(), b.ToFull()) && Enabled(s, step) && Calm(step)
    requires c < |s.conns| && s.conns[c].Links(a, b)
    ensures var t := Apply(s, step);
            && t.conns[c].out.Registered? && !t.conns[c].inn.Ended?
            && (t.conns[c].inn.Registered? ==> s.conns[c].inn.Registered? || Holds(t, b, a, c))
  {
  }

  lemma CalmStepKeeps(s: Net, step: Step, a: NodeId, b: NodeId)
    requires Inv(s) && CalmInv(s, a, b) && Less(a.ToFull(), b.ToFull()) && a != b && Enabled(s, step) && Calm(step)
    ensures CalmInv(Apply(s, step), a, b)
  {
    var t := Apply(s, step);
    CalmKeepsFrom(s, step, a, b);
    forall c
      ensures CalmConn(t, a, b, c)
    {
      CalmKeepsConn(s, step, a, b, c);
    }
    DialEndsInEntry(s, step, a, b);
  }

  lemma DialEndsInEntry(s: Net, step: Step, a: NodeId, b: NodeId)
    requires Less(a.ToFull(), b.ToFull()) && Enabled(s, step) && Calm(step) && s.stopped == {}
    requires (a, b) in s.passed ==> (a, b) in s.dialing || HasFrom(s, a, b, a, b)
    ensures var t := Apply(s, step);
            && t.stopped == {}
            && ((a, b) in t.passed ==> (a, b) in t.dialing || HasFrom(s, a, b, a, b) || HasFrom(t, a, b, a, b))
  {
  }

  lemma {:induction false} CalmRunKeeps(s: Net, steps: seq<Step>, a: NodeId, b: NodeId)
    requires Inv(s) && CalmInv(s, a, b) && Less(a.ToFull(), b.ToFull()) && a != b && Legal(s, steps) && AllCalm(steps)
    ensures CalmInv(Run(s, steps), a, b)
    decreases |steps|
  {
    if steps != [] {
      assert Calm(steps[0]);
      StepKeepsInv(s, steps[0]);
      CalmStepKeeps(s, steps[0], a, b);
      CalmRunKeeps(Apply(s, steps[0]), steps[1..], a, b);
    }
  }

  /** With any number of dials at a time and nothing going wrong, each end of a settled pair holds a connection
      that the smaller id dialed, if it got past its check at all; by `WinnerHeldIff` it is the same one at both
      ends exactly when that one was inserted last and its handshake read last. */
  lemma BothEndsHoldSmallerDial(steps: seq<Step>, a: NodeId, b: NodeId)
    requires Legal(Start(), steps) && AllCalm(steps) && a != b && Less(a.ToFull(), b.ToFull())
    requires Settled(Run(Start(), steps), a, b) && (a, b) in Run(Start(), steps).passed
    ensures HasFrom(Run(Start(), steps), a, b, a, b) && HasFrom(Run(Start(), steps), b, a, a, b)
  {
    var s := Run(Start(), steps);
    CalmRunKeeps(Start(), steps, a, b);
    assert CalmConn(s, a, b, PeersOf(s, a)[b]);
  }

  // ---------- the losing connection ----------

  /** The smaller id reads the handshake of `d` while it has no entry for the larger one. */
  predicate Lets(s: Net, step: Step, a: NodeId, b: NodeId, d: nat) {
    step.Handshake? && step.c == d && b !in PeersOf(s, a)
  }

  predicate LetIn(s: Net, steps: seq<Step>, a: NodeId, b: NodeId, d: nat)
    requires Legal(s, steps)
    decreases |steps|
  {
    steps != [] && (Lets(s, steps[0], a, b, d) || LetIn(Apply(s, steps[0]), steps[1..], a, b, d))
  }

  predicate IsOpen(s: Net, d: nat) {
    d < |s.conns| && s.conns[d].out.Registered? && s.conns[d].inn.Registered?
  }

  /** Without broadcasts and failures the dialer's end never goes first. */
  predicate OutOutlivesIn(s: Net, d: nat) {
    d < |s.conns| && s.conns[d].out.Ended? ==> s.conns[d].inn.Ended?
  }

  lemma CalmStep(s: Net, step: Step, a: NodeId, b: NodeId, d: nat)
    requires Shaped(s) && Enabled(s, step) && Calm(step) && s.stopped == {} && OutOutlivesIn(s, d)
    requires Less(a.ToFull(), b.ToFull()) && (d < |s.conns| ==> s.conns[d].Links(b, a))
    ensures var t := Apply(s, step);
            && t.stopped == {} && OutOutlivesIn(t, d)
            && (d < |t.conns| && t.conns[d].Links(b, a) ==>
                  (IsOpen(t, d) <==> IsOpen(s, d) || (Lets(s, step, a, b, d) && d < |s.conns|)))
  {
    match step {
      case Handshake(i, _) => CalmHandshake(s, i, a, b, d);
      case LoopEnds(i, side, cause) => CalmLoopEnds(s, i, side, cause, d);
      case _ => CalmDial(s, step, d);
    }
  }

  lemma CalmDial(s: Net, step: Step, d: nat)
    requires Enabled(s, step) && OutOutlivesIn(s, d) && (step.Check? || step.Insert? || step.Accept?)
    ensures OutOutlivesIn(Apply(s, step), d) && (IsOpen(Apply(s, step), d) <==> IsOpen(s, d))
  {
  }

  lemma CalmHandshake(s: Net, i: nat, a: NodeId, b: NodeId, d: nat)
    requires Shaped(s) && Enabled(s, Handshake(i, true)) && s.stopped == {} && OutOutlivesIn(s, d)
    requires Less(a.ToFull(), b.ToFull()) && (d < |s.conns| ==> s.conns[d].Links(b, a))
    ensures var t := Apply(s, Handshake(i, true));
            && OutOutlivesIn(t, d) && (IsOpen(t, d) <==> IsOpen(s, d) || Lets(s, Handshake(i, true), a, b, d))
  {
    LessIsTotal(a.ToFull(), b.ToFull());
  }

  lemma CalmLoopEnds(s: Net, i: nat, side: Side, cause: Cause, d: nat)
    requires Enabled(s, LoopEnds(i, side, cause)) && cause.Eof? && OutOutlivesIn(s, d)
    ensures var t := Apply(s, LoopEnds(i, side, cause)); OutOutlivesIn(t, d) && (IsOpen(t, d) <==> IsOpen(s, d))
  {
  }

  lemma {:induction false} OpenIffLetIn(s: Net, steps: seq<Step>, a: NodeId, b: NodeId, d: nat)
    requires Inv(s) && Legal(s, steps) && AllCalm(steps) && s.stopped == {} && OutOutlivesIn(s, d)
    requires Less(a.ToFull(), b.ToFull()) && d < |Run(s, steps).conns| && Run(s, steps).conns[d].Links(b, a)
    ensures IsOpen(Run(s, steps), d) <==> IsOpen(s, d) || LetIn(s, steps, a, b, d)
    decreases |steps|
  {
    if steps != [] {
      var t := Apply(s, steps[0]);
      assert Calm(steps[0]);
      if d < |s.conns| {
        KeepsItsEnds(s, steps, d);
      }
      CalmStep(s, steps[0], a, b, d);
      if d < |t.conns| {
        KeepsItsEnds(t, steps[1..], d);
      }
      StepKeepsInv(s, steps[0]);
      OpenIffLetIn(t, steps[1..], a, b, d);
    }
  }

  /** Both dialed, however often, nothing went wrong, everything is settled: a connection of the larger id is held
      by nobody, and it stays open all the same if and only if its handshake was read while the smaller id had
      no entry for the larger one, so before the insert of its own dial. */
  lemma {:induction false} LoserStaysOpenIff(steps: seq<Step>, a: NodeId, b: NodeId, d: nat)
    requires Legal(Start(), steps) && AllCalm(steps) && a != b && Less(a.ToFull(), b.ToFull())
    requires var s := Run(Start(), steps);
             Settled(s, a, b) && (a, b) in s.passed && d < |s.conns| && s.conns[d].Links(b, a)
    ensures var s := Run(Start(), steps);
            && !Holds(s, a, b, d) && !Holds(s, b, a, d)
            && (IsOpen(s, d) <==> LetIn(Start(), steps, a, b, d))
  {
    var s := Run(Start(), steps);
    BothEndsHoldSmallerDial(steps, a, b);
    OpenIffLetIn(Start(), steps, a, b, d);
  }

  // ---------- two runs without failures ----------

  function OverlapRace(): seq<Step> {
    [Check(A, B), Check(A, B), Insert(A, B), Insert(A, B), Accept(0), Accept(1), Handshake(1, true), Handshake(0, true)]
  }

  function OverlapStates(): seq<Net> {
    var reg, wait, passed := Registered(false), Waiting(false), {(A, B)};
    var pa := map[A := map[B := 1]];
    [Start(),
     Net(map[], {}, multiset{(A, B)}, passed, [], {}),
     Net(map[], {}, multiset{(A, B), (A, B)}, passed, [], {}),
     Net(map[A := map[B := 0]], {}, multiset{(A, B)}, passed, [Conn(A, B, reg, Pending)], {}),
     Net(pa, {}, multiset{}, passed, [Conn(A, B, reg, Pending), Conn(A, B, reg, Pending)], {}),
     Net(pa, {}, multiset{}, passed, [Conn(A, B, reg, wait), Conn(A, B, reg, Pending)], {}),
     Net(pa, {}, multiset{}, passed, [Conn(A, B, reg, wait), Conn(A, B, reg, wait)], {}),
     Net(pa[B := map[A := 1]], {}, multiset{}, passed, [Conn(A, B, reg, wait), Conn(A, B, reg, reg)], {}),
     Net(pa[B := map[A := 0]], {}, multiset{}, passed, [Conn(A, B, reg, reg), Conn(A, B, reg, reg)], {})]
  }

  lemma OverlapBegins()
    ensures forall i :: 0 <= i < 3 ==> Leads(OverlapStates()[i], OverlapRace()[i], OverlapStates()[i + 1])
  {
    SmallerId();
  }

  lemma OverlapInserts()
    ensures forall i :: 3 <= i < 6 ==> Leads(OverlapStates()[i], OverlapRace()[i], OverlapStates()[i + 1])
  {
    SmallerId();
    assert PeersOf(OverlapStates()[3], A)[B := 1] == map[B := 1];
    assert Apply(OverlapStates()[3], OverlapRace()[3]).peers == OverlapStates()[4].peers;
  }

  lemma OverlapRegisters()
    ensures Leads(OverlapStates()[6], OverlapRace()[6], OverlapStates()[7])
  {
    SmallerId();
    assert Apply(OverlapStates()[6], OverlapRace()[6]).peers == OverlapStates()[7].peers;
  }

  lemma OverlapEnds()
    ensures Leads(OverlapStates()[7], OverlapRace()[7], OverlapStates()[8])
    ensures var s := OverlapStates()[8]; Settled(s, A, B) && Holds(s, A, B, 1) && Holds(s, B, A, 0) && s.lost == {}
  {
    SmallerId();
    assert PeersOf(OverlapStates()[7], B)[A := 0] == map[A := 0];
    assert Apply(OverlapStates()[7], OverlapRace()[7]).peers == OverlapStates()[8].peers;
  }

  /** Two dials of the same peer under way at once and nothing else: everything is settled, nothing was lost, and
      the two ends hold different connections. */
  lemma OverlappingDialsDisagree() returns (steps: seq<Step>)
    ensures Legal(Start(), steps) && AllCalm(steps)
    ensures var s := Run(Start(), steps); Settled(s, A, B) && Holds(s, A, B, 1) && Holds(s, B, A, 0) && s.lost == {}
  {
    OverlapBegins();
    OverlapInserts();
    OverlapRegisters();
    OverlapEnds();
    steps := OverlapRace();
    FollowStates(OverlapStates(), steps);
  }

  function OpenRace(): seq<Step> {
    [Check(B, A), Insert(B, A), Accept(0), Check(A, B), Handshake(0, true), Insert(A, B), Accept(1), Handshake(1, true)]
  }

  function OpenStates(): seq<Net> {
    var reg, wait := Registered(false), Waiting(false);
    var both := {(A, B), (B, A)};
    [Start(),
     Net(map[], {}, multiset{(B, A)}, {(B, A)}, [], {}),
     Net(map[B := map[A := 0]], {}, multiset{}, {(B, A)}, [Conn(B, A, reg, Pending)], {}),
     Net(map[B := map[A := 0]], {}, multiset{}, {(B, A)}, [Conn(B, A, reg, wait)], {}),
     Net(map[B := map[A := 0]], {}, multiset{(A, B)}, both, [Conn(B, A, reg, wait)], {}),
     Net(map[A := map[B := 0], B := map[A := 0]], {}, multiset{(A, B)}, both, [Conn(B, A, reg, reg)], {}),
     Net(map[A := map[B := 1], B := map[A := 0]], {}, multiset{}, both,
         [Conn(B, A, reg, reg), Conn(A, B, reg, Pending)], {}),
     Net(map[A := map[B := 1], B := map[A := 0]], {}, multiset{}, both, [Conn(B, A, reg, reg), Conn(A, B, reg, wait)],
         {}),
     Net(map[A := map[B := 1], B := map[A := 1]], {}, multiset{}, both, [Conn(B, A, reg, reg), Conn(A, B, reg, reg)],
         {})]
  }

  lemma {:induction false} OpenBegins()
    ensures forall i :: 0 <= i < 5 ==> Leads(OpenStates()[i], OpenRace()[i], OpenStates()[i + 1])
  {
    SmallerId();
  }

  lemma OpenInserts()
    ensures forall i :: 5 <= i < 7 ==> Leads(OpenStates()[i], OpenRace()[i], OpenStates()[i + 1])
  {
    SmallerId();
    assert PeersOf(OpenStates()[5], A)[B := 1] == map[B := 1];
    assert Apply(OpenStates()[5], OpenRace()[5]).peers == OpenStates()[6].peers;
  }

  lemma OpenEnds()
    ensures Leads(OpenStates()[7], OpenRace()[7], OpenStates()[8])
    ensures var s := OpenStates()[8]; Settled(s, A, B) && IsOpen(s, 0) && !Holds(s, A, B, 0) && !Holds(s, B, A, 0)
  {
    SmallerId();
    assert PeersOf(OpenStates()[7], B)[A := 1] == map[A := 1];
    assert Apply(OpenStates()[7], OpenRace()[7]).peers == OpenStates()[8].peers;
  }

  /** A run of nothing but dials and handshakes after which a connection that nobody holds stays open. */
  lemma LoserStaysOpen() returns (steps: seq<Step>)
    ensures Legal(Start(), steps) && AllCalm(steps)
    ensures var s := Run(Start(), steps); Settled(s, A, B) && IsOpen(s, 0) && !Holds(s, A, B, 0) && !Holds(s, B, A, 0)
  {
    OpenBegins();
    OpenInserts();
    OpenEnds();
    steps := OpenRace();
    FollowStates(OpenStates(), steps);
  }
}
