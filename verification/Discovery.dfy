/** Joining a cluster from seed nodes: connect, ask whom they know, repeat. */
module Discovery {

  /** The cluster during one join: what each node answers, and which nodes can be connected to and asked. */
  datatype World = World(self: string, answers: string -> seq<string>, responsive: string -> bool)

  /** A chain of responsive nodes other than ourselves, each named by the one before, the first by a seed. */
  ghost predicate IsChain(w: World, seeds: seq<string>, chain: seq<string>) {
    && chain != [] && chain[0] in seeds
    && (forall i :: 0 <= i < |chain| ==> chain[i] != w.self && w.responsive(chain[i]))
    && (forall i :: 0 < i < |chain| ==> chain[i] in w.answers(chain[i - 1]))
  }

  ghost predicate Reachable(w: World, seeds: seq<string>, p: string) {
    exists chain :: IsChain(w, seeds, chain) && chain[|chain| - 1] == p
  }

  /** Worth an attempt: a seed, or named by a node already joined. */
  ghost predicate Named(w: World, seeds: seq<string>, connected: set<string>, p: string) {
    p in seeds || exists q :: q in connected && p in w.answers(q)
  }

  lemma NamedIsReachable(w: World, seeds: seq<string>, connected: set<string>, p: string)
    requires Named(w, seeds, connected, p) && p != w.self && w.responsive(p)
    requires forall q :: q in connected ==> Reachable(w, seeds, q)
    ensures Reachable(w, seeds, p)
  {
    if p in seeds {
      var chain := [p];
      assert IsChain(w, seeds, chain) && chain[|chain| - 1] == p;
    } else {
      var q :| q in connected && p in w.answers(q);
      var chain :| IsChain(w, seeds, chain) && chain[|chain| - 1] == q;
      var longer := chain + [p];
      assert IsChain(w, seeds, longer) && longer[|longer| - 1] == p;
    }
  }

  /** Everything named so far has been attempted or is waiting, and attempts are sorted out correctly. */
  ghost predicate Inv(w: World, seeds: seq<string>, visited: set<string>, connected: set<string>,
      waiting: set<string>) {
    && w.self in visited
    && (forall p :: p in connected <==> p in visited && p != w.self && w.responsive(p))
    && (forall p :: p in connected ==> Reachable(w, seeds, p))
    && (forall p :: Named(w, seeds, connected, p) ==> p in visited || p in waiting)
    && (forall p :: p in visited && p != w.self ==> Named(w, seeds, connected, p))
    && (forall p :: p in waiting ==> Named(w, seeds, connected, p))
  }

  function Elements(s: seq<string>): set<string> {
    set x | x in s
  }

  lemma ElementsConcat(a: seq<string>, b: seq<string>)
    ensures Elements(a + b) == Elements(a) + Elements(b)
  {
    forall x
      ensures x in a + b <==> x in a || x in b
    {
    }
  }

  lemma ElementsHead(s: seq<string>)
    requires s != []
    ensures Elements(s) == {s[0]} + Elements(s[1..])
  {
    ElementsConcat([s[0]], s[1..]);
    assert s == [s[0]] + s[1..];
  }

  /** Whatever has been visited need not wait any longer. */
  lemma ForgetVisited(w: World, seeds: seq<string>, visited: set<string>, connected: set<string>,
      waiting: set<string>, waiting': set<string>)
    requires Inv(w, seeds, visited, connected, waiting) && waiting - visited <= waiting' <= waiting
    ensures Inv(w, seeds, visited, connected, waiting')
  {
  }

  lemma FailKeepsInv(w: World, seeds: seq<string>, visited: set<string>, connected: set<string>, waiting: set<string>,
      p: string)
    requires Inv(w, seeds, visited, connected, waiting) && p in waiting && p !in visited && !w.responsive(p)
    ensures Inv(w, seeds, visited + {p}, connected, waiting)
  {
  }

  lemma JoinKeepsInv(w: World, seeds: seq<string>, visited: set<string>, connected: set<string>, waiting: set<string>,
      p: string)
    requires Inv(w, seeds, visited, connected, waiting) && p in waiting && p !in visited && w.responsive(p)
    ensures Inv(w, seeds, visited + {p}, connected + {p}, waiting + Elements(w.answers(p)))
  {
    NamedIsReachable(w, seeds, connected, p);
    var connected', waiting' := connected + {p}, waiting + Elements(w.answers(p));
    forall x | Named(w, seeds, connected', x)
      ensures x in visited + {p} || x in waiting'
    {
      assert Named(w, seeds, connected, x) || x in w.answers(p);
    }
    forall x | Named(w, seeds, connected, x)
      ensures Named(w, seeds, connected', x)
    {
      assert x in seeds || exists q :: q in connected' && x in w.answers(q);
    }
  }

  lemma {:induction false} ChainIsConnected(w: World, seeds: seq<string>, visited: set<string>,
      connected: set<string>, chain: seq<string>, i: nat)
    requires Inv(w, seeds, visited, connected, {}) && IsChain(w, seeds, chain) && i < |chain|
    ensures chain[i] in connected
  {
    if i > 0 {
      ChainIsConnected(w, seeds, visited, connected, chain, i - 1);
      assert chain[i - 1] in connected && chain[i] in w.answers(chain[i - 1]);
    }
    assert Named(w, seeds, connected, chain[i]);
  }

  lemma DoneMeansReachable(w: World, seeds: seq<string>, visited: set<string>, connected: set<string>)
    requires Inv(w, seeds, visited, connected, {})
    ensures forall p :: p in connected <==> Reachable(w, seeds, p)
  {
    forall p | Reachable(w, seeds, p)
      ensures p in connected
    {
      var chain :| IsChain(w, seeds, chain) && chain[|chain| - 1] == p;
      ChainIsConnected(w, seeds, visited, connected, chain, |chain| - 1);
    }
  }

  ghost predicate Distinct(s: seq<string>) {
    forall i, j :: 0 <= i < j < |s| ==> s[i] != s[j]
  }

  /** The visited peers are ourselves and the attempted ones, each attempted once. */
  ghost predicate Logged(w: World, visited: set<string>, attempts: seq<string>) {
    Distinct(attempts) && visited == Elements(attempts) + {w.self} && w.self !in attempts
  }

  lemma LogOne(w: World, visited: set<string>, attempts: seq<string>, p: string)
    requires Logged(w, visited, attempts) && p !in visited
    ensures Logged(w, visited + {p}, attempts + [p])
  {
    assert Elements(attempts + [p]) == Elements(attempts) + {p};
  }

  /** Joins every node reachable from the seeds through responsive nodes, and no other; tries none twice.
      `universe` is any finite set of ids that contains the seeds and is closed under answers. */
  method JoinViaSeeds(w: World, seeds: seq<string>, ghost universe: set<string>)
    returns (connected: set<string>, attempts: seq<string>)
    requires Elements(seeds) <= universe && forall p :: p in universe ==> Elements(w.answers(p)) <= universe
    ensures forall p :: p in connected <==> Reachable(w, seeds, p)
    ensures Distinct(attempts)
    ensures forall p :: p in attempts <==> p != w.self && Named(w, seeds, connected, p)
  {
    connected, attempts := {}, [];
    var visited := {w.self};
    var frontier := Filter(seeds, w.self);
    while frontier != []
      invariant Inv(w, seeds, visited, connected, Elements(frontier)) && Logged(w, visited, attempts)
      invariant visited <= universe + {w.self} && Elements(frontier) <= universe
      decreases universe - visited, |frontier|
    {
      connected, visited, attempts, frontier := OnePass(w, seeds, universe, connected, visited, attempts, frontier);
    }
    assert Elements(frontier) == {};
    DoneMeansReachable(w, seeds, visited, connected);
    forall p
      ensures p in attempts <==> p != w.self && Named(w, seeds, connected, p)
    {
      assert p in attempts <==> p in Elements(attempts);
    }
  }

  function Filter(seeds: seq<string>, self: string): (r: seq<string>)
    ensures Elements(r) == Elements(seeds) - {self}
  {
    if seeds == [] then []
    else
      var r := Filter(seeds[1..], self);
      ElementsHead(seeds);
      ElementsConcat([seeds[0]], r);
      if seeds[0] == self then r else [seeds[0]] + r
  }

  /** One pass over the frontier; it returns the next one. */
  method OnePass(w: World, seeds: seq<string>, ghost universe: set<string>,
                 connected0: set<string>, visited0: set<string>, attempts0: seq<string>, frontier: seq<string>)
    returns (connected: set<string>, visited: set<string>, attempts: seq<string>, next: seq<string>)
    requires forall p :: p in universe ==> Elements(w.answers(p)) <= universe
    requires Inv(w, seeds, visited0, connected0, Elements(frontier)) && Logged(w, visited0, attempts0)
    requires visited0 <= universe + {w.self} && Elements(frontier) <= universe
    ensures Inv(w, seeds, visited, connected, Elements(next)) && Logged(w, visited, attempts)
    ensures visited0 <= visited <= universe + {w.self} && Elements(next) <= universe
    ensures visited == visited0 ==> next == []
  {
    connected, visited, attempts, next := connected0, visited0, attempts0, [];
    assert frontier[0..] == frontier && Elements(frontier) + Elements(next) == Elements(frontier);
    for i := 0 to |frontier|
      invariant Inv(w, seeds, visited, connected, Elements(frontier[i..]) + Elements(next)) &&
                Logged(w, visited, attempts)
      invariant visited0 <= visited <= universe + {w.self} && Elements(next) <= universe
      invariant visited == visited0 ==> next == []
    {
      var peer := frontier[i];
      ghost var later := Elements(frontier[i + 1..]);
      ElementsHead(frontier[i..]);
      assert frontier[i..][0] == peer && frontier[i..][1..] == frontier[i + 1..];
      assert peer in Elements(frontier);
      if peer !in visited {
        LogOne(w, visited, attempts, peer);
        connected, visited, attempts, next :=
            Attempt(w, seeds, universe, connected, visited, attempts, next, peer, later);
      } else {
        ForgetVisited(w, seeds, visited, connected, {peer} + later + Elements(next), later + Elements(next));
      }
    }
    assert frontier[|frontier|..] == [] && Elements([]) + Elements(next) == Elements(next);
  }

  /** A peer not visited before: connect and ask; `later` is what else still waits in this pass. */
  method Attempt(w: World, seeds: seq<string>, ghost universe: set<string>,
                 connected0: set<string>, visited0: set<string>,
                 attempts0: seq<string>, next0: seq<string>, peer: string, ghost later: set<string>)
    returns (connected: set<string>, visited: set<string>, attempts: seq<string>, next: seq<string>)
    requires Inv(w, seeds, visited0, connected0, {peer} + later + Elements(next0)) && peer !in visited0 &&
             peer in universe
    requires Elements(w.answers(peer)) <= universe && Elements(next0) <= universe
    ensures visited == visited0 + {peer} && attempts == attempts0 + [peer]
    ensures Inv(w, seeds, visited, connected, later + Elements(next)) && Elements(next) <= universe
  {
    ghost var waiting := {peer} + later + Elements(next0);
    attempts, visited, connected, next := attempts0 + [peer], visited0 + {peer}, connected0, next0;
    if !w.responsive(peer) {
      FailKeepsInv(w, seeds, visited0, connected0, waiting, peer);
      ForgetVisited(w, seeds, visited, connected, waiting, later + Elements(next));
      return;
    }
    JoinKeepsInv(w, seeds, visited0, connected0, waiting, peer);
    connected := connected + {peer};
    next := AppendUnvisited(next0, w.answers(peer), visited);
    ForgetVisited(w, seeds, visited, connected, waiting + Elements(w.answers(peer)), later + Elements(next));
  }

  method AppendUnvisited(next0: seq<string>, candidates: seq<string>, visited: set<string>) returns (next: seq<string>)
    ensures Elements(next) == Elements(next0) + (Elements(candidates) - visited)
  {
    next := next0;
    for i := 0 to |candidates|
      invariant Elements(next) == Elements(next0) + (Elements(candidates[..i]) - visited)
    {
      ElementsConcat(candidates[..i], [candidates[i]]);
      assert candidates[..i + 1] == candidates[..i] + [candidates[i]];
      if candidates[i] !in visited {
        ElementsConcat(next, [candidates[i]]);
        next := next + [candidates[i]];
      }
    }
    assert candidates[..|candidates|] == candidates;
  }
}
