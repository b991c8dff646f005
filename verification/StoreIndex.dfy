/**
 The derived structures beside the NFSv4 state tables (nfs4/state.go): per-path
 lists of stateids and per-client counters, and what "they agree" means.
 */
module StoreIndex {
  import opened Lists
  import opened NfsTables

  /** `index` lists exactly the stateids of each path, once each, and has no empty list. */
  ghost predicate IndexOk(index: map<Path, seq<Other>>, paths: map<Other, Path>) {
    && (forall p :: p in index ==> index[p] != [] && NoDup(index[p]))
    && (forall p, x :: p in index && x in index[p] ==> x in paths && paths[x] == p)
    && (forall x :: x in paths ==> paths[x] in index && x in index[paths[x]])
  }

  function Listed(index: map<Path, seq<Other>>, p: Path): seq<Other> {
    if p in index then index[p] else []
  }

  lemma ListedExactly(index: map<Path, seq<Other>>, paths: map<Other, Path>, p: Path)
    requires IndexOk(index, paths)
    ensures forall x :: x in Listed(index, p) <==> x in paths && paths[x] == p
    ensures forall k :: 0 <= k < |Listed(index, p)| ==> Listed(index, p)[k] in paths && paths[Listed(index, p)[k]] == p
    ensures NoDup(Listed(index, p))
  {}

  /** Appending a new stateid to its path's list. */
  function Append(index: map<Path, seq<Other>>, p: Path, x: Other): map<Path, seq<Other>> {
    index[p := Listed(index, p) + [x]]
  }

  lemma AppendOk(index: map<Path, seq<Other>>, paths: map<Other, Path>, p: Path, x: Other)
    requires IndexOk(index, paths) && x !in paths
    ensures IndexOk(Append(index, p, x), paths[x := p])
  {
    ListedExactly(index, paths, p);
    var index', paths' := Append(index, p, x), paths[x := p];
    assert NoDup(index'[p]);
    forall q, y | q in index' && y in index'[q] ensures y in paths' && paths'[y] == q {}
    forall y | y in paths' ensures paths'[y] in index' && y in index'[paths'[y]] {
      if y == x { assert (Listed(index, p) + [x])[|Listed(index, p)|] == x; }
    }
  }

  /** The list without `x`, and no entry at all once it is empty. */
  function Unlisted(index: map<Path, seq<Other>>, p: Path, x: Other): map<Path, seq<Other>> {
    var rest := Without(Listed(index, p), x);
    if rest == [] then index - {p} else index[p := rest]
  }

  lemma UnlistedOk(index: map<Path, seq<Other>>, paths: map<Other, Path>, x: Other)
    requires IndexOk(index, paths) && x in paths
    ensures IndexOk(Unlisted(index, paths[x], x), paths - {x})
  {
    var p := paths[x];
    var rest := Without(Listed(index, p), x);
    WithoutExactly(Listed(index, p), x);
    ListedExactly(index, paths, p);
    var index' := Unlisted(index, p, x);
    forall y | y in paths - {x} ensures paths[y] in index' && y in index'[paths[y]] {
      if paths[y] == p { assert y in rest; }
    }
  }

  method Unlist(index: map<Path, seq<Other>>, p: Path, x: Other) returns (out: map<Path, seq<Other>>)
    ensures out == Unlisted(index, p, x)
  {
    var list := Splice(Listed(index, p), x);
    if list == [] { out := index - {p}; } else { out := index[p := list]; }
  }

  // ---------- counters ----------

  function CountOf(counts: map<ClientId, nat>, c: ClientId): nat {
    if c in counts then counts[c] else 0
  }

  ghost function Having(clients: map<Other, ClientId>, c: ClientId): set<Other> {
    set x | x in clients && clients[x] == c
  }

  ghost predicate CountsOk(counts: map<ClientId, nat>, clients: map<Other, ClientId>) {
    forall c :: CountOf(counts, c) == |Having(clients, c)|
  }

  lemma HavingAdd(clients: map<Other, ClientId>, x: Other, c: ClientId, d: ClientId)
    requires x !in clients
    ensures |Having(clients[x := c], d)| == |Having(clients, d)| + if d == c then 1 else 0
  {
    assert Having(clients[x := c], d) == if d == c then Having(clients, d) + {x} else Having(clients, d);
  }

  lemma HavingDrop(clients: map<Other, ClientId>, x: Other, d: ClientId)
    requires x in clients
    ensures |Having(clients, d)| == |Having(clients - {x}, d)| + if d == clients[x] then 1 else 0
  {
    assert Having(clients, d) == Having(clients - {x}, d) + if d == clients[x] then {x} else {};
  }

  lemma CountAdd(counts: map<ClientId, nat>, clients: map<Other, ClientId>, x: Other, c: ClientId)
    requires CountsOk(counts, clients) && x !in clients
    ensures CountsOk(counts[c := CountOf(counts, c) + 1], clients[x := c])
  {
    var counts' := counts[c := CountOf(counts, c) + 1];
    forall d ensures CountOf(counts', d) == |Having(clients[x := c], d)| {
      HavingAdd(clients, x, c, d);
      assert CountOf(counts, d) == |Having(clients, d)|;
    }
  }

  lemma CountDrop(counts: map<ClientId, nat>, clients: map<Other, ClientId>, x: Other)
    requires CountsOk(counts, clients) && x in clients
    ensures CountOf(counts, clients[x]) > 0
    ensures CountsOk(counts[clients[x] := CountOf(counts, clients[x]) - 1], clients - {x})
  {
    var c := clients[x];
    HavingDrop(clients, x, c);
    assert CountOf(counts, c) == |Having(clients, c)|;
    var counts' := counts[c := CountOf(counts, c) - 1];
    forall d ensures CountOf(counts', d) == |Having(clients - {x}, d)| {
      HavingDrop(clients, x, d);
      assert CountOf(counts, d) == |Having(clients, d)|;
    }
  }
}
