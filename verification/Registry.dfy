/** Cluster-wide names: claims, releases and snapshots gossiped between nodes. */
module Registry {
  import opened Common

  /** An actor on the node that claimed the name for it. */
  datatype Owner = Owner(origin: string, actor: string)

  type Names = map<string, Owner>

  datatype Message = Claim(name: string, owner: Owner) | Release(name: string, owner: Owner) | Snapshot(entries: Names)

  // ---------- one node's table ----------

  /** A claim is taken unless somebody else already has the name. */
  function Accept(reg: Names, name: string, owner: Owner): Names {
    if name in reg && reg[name] != owner then reg else reg[name := owner]
  }

  /** A snapshot adds the names that are absent and changes none that are present. */
  function AcceptAll(reg: Names, entries: Names): Names {
    entries + reg
  }

  function Drop(reg: Names, name: string, owner: Owner): Names {
    if name in reg && reg[name] == owner then reg - {name} else reg
  }

  function Receive(reg: Names, m: Message): Names {
    match m
    case Claim(name, owner) => Accept(reg, name, owner)
    case Release(name, owner) => Drop(reg, name, owner)
    case Snapshot(entries) => AcceptAll(reg, entries)
  }

  function DropOrigin(reg: Names, origin: string): Names {
    map n | n in reg && reg[n].origin != origin :: reg[n]
  }

  function OwnedBy(reg: Names, owner: Owner): set<string> {
    set n | n in reg && reg[n] == owner
  }

  /** A node's table and what it sends to its peers. */
  datatype Effect = Effect(names: Names, sends: multiset<(string, Message)>)

  predicate Refuses(reg: Names, name: string, me: Owner) {
    name in reg && reg[name] != me
  }

  function Registered(reg: Names, peers: set<string>, name: string, me: Owner): Effect {
    if Refuses(reg, name, me) then Effect(reg, multiset{})
    else Effect(reg[name := me], multiset(ToAll(peers, Claim(name, me))))
  }

  function Unregistered(reg: Names, peers: set<string>, name: string, me: Owner): Effect {
    Effect(Drop(reg, name, me),
           if name in OwnedBy(reg, me) then multiset(ToAll(peers, Release(name, me))) else multiset{})
  }

  /** The end of a generation of `me`. */
  function Ended(reg: Names, peers: set<string>, me: Owner): Effect {
    Effect(reg - OwnedBy(reg, me), Releases(peers, OwnedBy(reg, me), me))
  }

  function SnapshotFor(reg: Names, peer: string): multiset<(string, Message)> {
    if reg == map[] then multiset{} else multiset{(peer, Snapshot(reg))}
  }

  class RegistryNode {
    const local: string
    var registry: Names
    var peers: set<string>
    var outbox: multiset<(string, Message)>    // sends to peers, scheduled
    var snapshotTasks: multiset<string>        // peers a snapshot is still to be taken for
    var conflicts: seq<(string, Owner, Owner)>  // (name, existing, incoming) reported

    constructor (local: string)
      ensures this.local == local && registry == map[] && peers == {}
      ensures outbox == multiset{} && snapshotTasks == multiset{} && conflicts == []
    {
      this.local, registry, peers := local, map[], {};
      outbox, snapshotTasks, conflicts := multiset{}, multiset{}, [];
    }

    method Broadcast(m: Message)
      modifies this`outbox
      ensures outbox == old(outbox) + multiset(ToAll(peers, m))
    {
      var todo, sends := peers, multiset{};
      ghost var sent: set<string> := {};
      while todo != {}
        invariant todo + sent == peers && todo !! sent && outbox == old(outbox)
        invariant sends == multiset(ToAll(sent, m))
      {
        var p :| p in todo;
        assert ToAll(sent + {p}, m) == ToAll(sent, m) + {(p, m)} && (p, m) !in ToAll(sent, m);
        todo, sent, sends := todo - {p}, sent + {p}, sends + multiset{(p, m)};
      }
      assert sent == peers;
      outbox := outbox + sends;
    }

    /** `register_name`: refused exactly when the name is known to belong to a different actor. */
    method RegisterName(name: string, actor: string) returns (r: Result<(), Owner>)
      modifies this`registry, this`outbox
      ensures var me := Owner(local, actor);
              var effect := Registered(old(registry), peers, name, me);
              && (r.Err? <==> Refuses(old(registry), name, me)) && (r.Err? ==> r.error == old(registry)[name])
              && registry == effect.names && outbox == old(outbox) + effect.sends
    {
      var me := Owner(local, actor);
      if name in registry && registry[name] != me {
        return Err(registry[name]);
      }
      registry := registry[name := me];
      Broadcast(Claim(name, me));
      return Ok(());
    }

    method UnregisterName(name: string, actor: string)
      modifies this`registry, this`outbox
      ensures var effect := Unregistered(old(registry), peers, name, Owner(local, actor));
              registry == effect.names && outbox == old(outbox) + effect.sends
    {
      var me := Owner(local, actor);
      if name in registry && registry[name] == me {
        registry := registry - {name};
        Broadcast(Release(name, me));
      }
    }

    /** `_clear_registry`: a generation's end releases every name it owned. */
    method ClearRegistry(actor: string)
      modifies this`registry, this`outbox
      ensures var effect := Ended(old(registry), peers, Owner(local, actor));
              registry == effect.names && outbox == old(outbox) + effect.sends
    {
      var me := Owner(local, actor);
      var todo, sends := OwnedBy(registry, me), multiset{};
      ghost var mine, gone: set<string> := todo, {};
      while todo != {}
        invariant todo + gone == mine && todo !! gone && outbox == old(outbox)
        invariant registry == old(registry) - gone && sends == Releases(peers, gone, me)
      {
        var name :| name in todo;
        ReleasesGrow(peers, gone, name, me);
        todo, gone := todo - {name}, gone + {name};
        registry := registry - {name};
        sends := sends + multiset(ToAll(peers, Release(name, me)));
      }
      assert gone == mine;
      outbox := outbox + sends;
    }

    method PeerConnected(peer: string)
      modifies this`peers, this`snapshotTasks
      ensures peers == old(peers) + {peer} && snapshotTasks == old(snapshotTasks) + multiset{peer}
    {
      peers := peers + {peer};
      snapshotTasks := snapshotTasks + multiset{peer};
    }

    method PeerDisconnected(peer: string)
      modifies this`peers, this`registry
      ensures peers == old(peers) - {peer} && registry == DropOrigin(old(registry), peer)
    {
      peers := peers - {peer};
      var stale := set n | n in registry && registry[n].origin == peer;
      ghost var gone: set<string> := {};
      while stale != {}
        invariant stale + gone == (set n | n in old(registry) && old(registry)[n].origin == peer)
        invariant registry == old(registry) - gone && peers == old(peers) - {peer}
      {
        var name :| name in stale;
        registry := registry - {name};
        stale, gone := stale - {name}, gone + {name};
      }
      assert registry == DropOrigin(old(registry), peer);
    }

    /** The snapshot is taken when its task runs, not when the peer connected; an empty one is not sent. */
    method SendSnapshot(peer: string)
      requires peer in snapshotTasks
      modifies this`snapshotTasks, this`outbox
      ensures snapshotTasks == old(snapshotTasks) - multiset{peer}
      ensures outbox == old(outbox) + SnapshotFor(registry, peer)
    {
      snapshotTasks := snapshotTasks - multiset{peer};
      if registry != map[] {
        outbox := outbox + multiset{(peer, Snapshot(registry))};
      }
    }

    method ReceiveDelta(m: Message)
      requires !m.Snapshot?
      modifies this`registry, this`conflicts
      ensures registry == Receive(old(registry), m)
      ensures conflicts == old(conflicts) + if m.Claim? && m.name in old(registry) && old(registry)[m.name] != m.owner
                                            then [(m.name, old(registry)[m.name], m.owner)] else []
    {
      match m {
        case Claim(name, owner) =>
          if name in registry && registry[name] != owner {
            conflicts := conflicts + [(name, registry[name], owner)];
            return;
          }
          registry := registry[name := owner];
        case Release(name, owner) =>
          if name in registry && registry[name] == owner {
            registry := registry - {name};
          }
      }
    }

    /** Every entry is taken or, exactly once, reported as a conflict; the order is the snapshot's. */
    method ReceiveSnapshot(entries: Names)
      modifies this`registry, this`conflicts
      ensures registry == Receive(old(registry), Snapshot(entries))
      ensures multiset(conflicts) == multiset(old(conflicts)) + multiset(Clashes(old(registry), entries, entries.Keys))
    {
      var todo, reported := entries.Keys, [];
      while todo != {}
        invariant todo <= entries.Keys && conflicts == old(conflicts)
        invariant registry == (map n | n in entries.Keys - todo :: entries[n]) + old(registry)
        invariant multiset(reported) == multiset(Clashes(old(registry), entries, entries.Keys - todo))
      {
        var name :| name in todo;
        ClashesGrow(old(registry), entries, entries.Keys - todo, name);
        assert entries.Keys - todo + {name} == entries.Keys - (todo - {name});
        todo := todo - {name};
        var owner := entries[name];
        if name in registry && registry[name] != owner {
          reported := reported + [(name, registry[name], owner)];
        } else {
          registry := registry[name := owner];
        }
      }
      assert (map n | n in entries.Keys - todo :: entries[n]) == entries;
      assert entries.Keys - todo == entries.Keys;
      conflicts := conflicts + reported;
    }
  }

  /** Those of `names` that an owner other than the snapshot's is registered for. */
  function Clashes(reg: Names, entries: Names, names: set<string>): set<(string, Owner, Owner)> {
    set n | n in names && n in entries && n in reg && reg[n] != entries[n] :: (n, reg[n], entries[n])
  }

  lemma ClashesGrow(reg: Names, entries: Names, names: set<string>, name: string)
    requires name !in names && name in entries
    ensures multiset(Clashes(reg, entries, names + {name}))
            == multiset(Clashes(reg, entries, names))
               + if name in reg && reg[name] != entries[name] then multiset{(name, reg[name], entries[name])}
                   else multiset{}
  {
    assert Clashes(reg, entries, names + {name})
        == Clashes(reg, entries, names) + Clashes(reg, entries, {name});
    assert Clashes(reg, entries, {name})
        == if name in reg && reg[name] != entries[name] then {(name, reg[name], entries[name])} else {};
  }

  function ToAll(peers: set<string>, m: Message): set<(string, Message)> {
    set p | p in peers :: (p, m)
  }

  /** One release per name and peer. */
  function Releases(peers: set<string>, names: set<string>, owner: Owner): multiset<(string, Message)> {
    multiset(set p, n | p in peers && n in names :: (p, Release(n, owner)))
  }

  lemma ReleasesGrow(peers: set<string>, names: set<string>, name: string, owner: Owner)
    requires name !in names
    ensures Releases(peers, names + {name}, owner)
            == Releases(peers, names, owner) + multiset(ToAll(peers, Release(name, owner)))
  {
    var old' := set p, n | p in peers && n in names :: (p, Release(n, owner));
    var new' := set p, n | p in peers && n in names + {name} :: (p, Release(n, owner));
    assert new' == old' + ToAll(peers, Release(name, owner));
    assert old' !! ToAll(peers, Release(name, owner));
  }
}
