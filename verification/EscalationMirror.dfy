/** The decisions inside a supervision tree are those of its supervisors. */
module EscalationMirror {
  import opened Common
  import opened RestartBudget
  import opened Supervision
  import opened Escalation

  /** The list of a supervisor whose slots hold the children `cs`: a discarded child is not in it. */
  function Listed(ls: seq<Live>, cs: seq<Child>): seq<Child>
    requires |ls| == |cs|
  {
    if ls == [] then [] else (if ls[0].Gone? then [] else [cs[0]]) + Listed(ls[1..], cs[1..])
  }

  /** Where the child of slot `i` is in that list. */
  function Rank(ls: seq<Live>, i: nat): nat
    requires i < |ls|
  {
    if i == 0 then 0 else (if ls[0].Gone? then 0 else 1) + Rank(ls[1..], i - 1)
  }

  lemma {:induction false} ListedAt(ls: seq<Live>, cs: seq<Child>, i: nat)
    requires |ls| == |cs| && i < |ls| && !ls[i].Gone?
    ensures Rank(ls, i) < |Listed(ls, cs)| && Listed(ls, cs)[Rank(ls, i)] == cs[i]
    decreases |ls|
  {
    if i > 0 {
      ListedAt(ls[1..], cs[1..], i - 1);
    }
  }

  lemma {:induction false} ListedReplace(ls: seq<Live>, cs: seq<Child>, i: nat, l: Live, c: Child)
    requires |ls| == |cs| && i < |ls| && !ls[i].Gone? && !l.Gone?
    ensures Rank(ls, i) < |Listed(ls, cs)| && Listed(ls[i := l], cs[i := c]) == Listed(ls, cs)[Rank(ls, i) := c]
    decreases |ls|
  {
    if i == 0 {
      assert ls[i := l][1..] == ls[1..] && cs[i := c][1..] == cs[1..];
    } else {
      assert ls[i := l][1..] == ls[1..][i - 1 := l] && cs[i := c][1..] == cs[1..][i - 1 := c];
      ListedReplace(ls[1..], cs[1..], i - 1, l, c);
    }
  }

  lemma {:induction false} ListedRemove(ls: seq<Live>, cs: seq<Child>, i: nat)
    requires |ls| == |cs| && i < |ls| && !ls[i].Gone?
    ensures var c, all := Rank(ls, i), Listed(ls, cs);
            c < |all| && Listed(ls[i := Gone], cs) == all[..c] + all[c + 1..]
    decreases |ls|
  {
    if i == 0 {
      assert ls[i := Gone][1..] == ls[1..];
    } else {
      assert ls[i := Gone][1..] == ls[1..][i - 1 := Gone];
      ListedRemove(ls[1..], cs[1..], i - 1);
    }
  }

  lemma {:induction false} ListedEmpty(ls: seq<Live>, cs: seq<Child>)
    requires |ls| == |cs|
    ensures Listed(ls, cs) == [] <==> forall k :: 0 <= k < |ls| ==> ls[k].Gone?
    decreases |ls|
  {
    if ls != [] {
      ListedEmpty(ls[1..], cs[1..]);
      assert forall k :: 0 < k < |ls| ==> ls[k] == ls[1..][k - 1];
    }
  }

  lemma {:induction false} ListedWhole(ls: seq<Live>, cs: seq<Child>)
    requires |ls| == |cs| && forall k :: 0 <= k < |ls| ==> !ls[k].Gone?
    ensures Listed(ls, cs) == cs && forall i :: 0 <= i < |ls| ==> Rank(ls, i) == i
    decreases |ls|
  {
    if ls != [] {
      ListedWhole(ls[1..], cs[1..]);
      assert forall i :: 0 < i < |ls| ==> Rank(ls, i) == 1 + Rank(ls[1..], i - 1);
    }
  }

  /** The supervisor state that a running tree stands for, its slots holding the children `cs`. */
  ghost predicate Mirrors(l: Live, cs: seq<Child>, s: State) {
    l.Boss? && |cs| == |l.kids| && s.givenUp.None? && s.times == l.times && s.children == Listed(l.kids, cs)
  }

  ghost predicate NoneGone(ls: seq<Live>) {
    forall k :: 0 <= k < |ls| ==> !ls[k].Gone?
  }

  /** A granted restart gives a next life to exactly the children whose subtrees are built afresh. */
  lemma {:induction false} GrantAgrees(t: Tree, l: Live, cs: seq<Child>, s: State, i: nat, exc: string, now: real)
    requires t.Node? && Mirrors(l, cs, s) && i < |l.kids| == |t.kids| && !l.kids[i].Gone?
    requires Grants(t.limits, l.times, now) && (!t.strategy.OneForOne? ==> NoneGone(l.kids))
    ensures var c := Rank(l.kids, i);
            c < |s.children| && Mirrors(KidCrashed(t, l, i, now).live, Restarted(t.strategy, cs, i),
                                        HandleCrash(Config(t.strategy, t.limits), s, c, exc, now))
  {
    ListedAt(l.kids, cs, i);
    FreshIsNotGone(t.kids);
    if t.strategy.OneForOne? {
      LoneGrantAgrees(t, l, cs, s, i, exc, now);
    } else {
      ListedWhole(l.kids, cs);
      ListedWhole(RestartKids(t.strategy, t.kids, l.kids, i), Restarted(t.strategy, cs, i));
    }
  }

  lemma {:induction false} LoneGrantAgrees(t: Tree, l: Live, cs: seq<Child>, s: State, i: nat, exc: string, now: real)
    requires t.Node? && Mirrors(l, cs, s) && i < |l.kids| == |t.kids| && !l.kids[i].Gone? && !Fresh(t.kids[i]).Gone?
    requires Grants(t.limits, l.times, now) && t.strategy.OneForOne?
    ensures var c := Rank(l.kids, i);
            c < |s.children| && Mirrors(KidCrashed(t, l, i, now).live, Restarted(t.strategy, cs, i),
                                        HandleCrash(Config(t.strategy, t.limits), s, c, exc, now))
  {
    ListedAt(l.kids, cs, i);
    var c := Rank(l.kids, i);
    assert RestartKids(t.strategy, t.kids, l.kids, i) == l.kids[i := Fresh(t.kids[i])];
    assert Restarted(OneForOne, cs, i) == cs[i := NextLife(cs[i])];
    assert Restarted(OneForOne, s.children, c) == s.children[c := NextLife(cs[i])];
    ListedReplace(l.kids, cs, i, Fresh(t.kids[i]), NextLife(cs[i]));
  }

  /** A denial under one-for-one discards the same child, and ends the tree with the supervisor's last one. */
  lemma LoneDenialAgrees(t: Tree, l: Live, cs: seq<Child>, s: State, i: nat, exc: string, now: real)
    requires t.Node? && Mirrors(l, cs, s) && i < |l.kids| == |t.kids| && !l.kids[i].Gone?
    requires !Grants(t.limits, l.times, now) && t.strategy.OneForOne?
    ensures var c, o := Rank(l.kids, i), KidCrashed(t, l, i, now);
            c < |s.children| &&
            var s' := HandleCrash(Config(t.strategy, t.limits), s, c, exc, now);
            if o.up then s'.givenUp.Some? else Mirrors(o.live, cs, s')
  {
    ListedRemove(l.kids, cs, i);
    ListedEmpty(l.kids[i := Gone], cs);
    if k :| 0 <= k < |l.kids| && k != i && !l.kids[k].Gone? {
      assert !l.kids[i := Gone][k].Gone?;
    }
  }

  lemma FreshIsNotGone(ts: seq<Tree>)
    ensures forall k :: 0 <= k < |ts| ==> !Fresh(ts[k]).Gone?
  {
    forall k | 0 <= k < |ts|
      ensures !Fresh(ts[k]).Gone?
    {
      FreshIsSound(ts[k], 0.0);
    }
  }

  /** A tree crashes as a whole exactly when its supervisor gives up; otherwise the two still agree, slot by
      slot, on who was restarted, who was discarded and what is left of the budget. */
  lemma {:induction false} AgreesWithSupervisor(t: Tree, l: Live, cs: seq<Child>, s: State, i: nat, exc: string,
      now: real)
    requires t.Node? && Mirrors(l, cs, s) && i < |l.kids| == |t.kids| && !l.kids[i].Gone?
    requires !t.strategy.OneForOne? ==> NoneGone(l.kids)
    ensures var c, o := Rank(l.kids, i), KidCrashed(t, l, i, now);
            c < |s.children| && s.children[c] == cs[i] &&
            var s' := HandleCrash(Config(t.strategy, t.limits), s, c, exc, now);
            && (o.up <==> s'.givenUp.Some?)
            && (!o.up ==>
                  Mirrors(o.live, if Grants(t.limits, s.times, now) then Restarted(t.strategy, cs, i) else cs, s'))
  {
    ListedAt(l.kids, cs, i);
    if Grants(t.limits, l.times, now) {
      GrantAgrees(t, l, cs, s, i, exc, now);
    } else if t.strategy.OneForOne? {
      LoneDenialAgrees(t, l, cs, s, i, exc, now);
    }
  }
}
