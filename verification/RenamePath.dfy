/**
 Renaming a path in a per-path index (nfs4/state.go, renamePath).

 The server ranges over the index map while deleting and inserting keys, so a key
 that was inserted during the walk may or may not be visited.  `order` stands for
 the keys the walk visits: every key the map held, and any others.
 */
module RenamePath {
  import opened Lists
  import opened NfsTables
  import opened NfsInvariants
  import opened StoreIndex

  /** One table: the index, and the path field of each entry. */
  datatype Table = Table(index: map<Path, seq<Other>>, paths: map<Other, Path>)

  /** The body of the walk for one visited key. */
  function Visit(t: Table, from: Path, to: Path, key: Path): Table {
    if key !in t.index || !Under(from, key) then t
    else
      var target := Moved(from, to, key);
      var rest := t.index - {key};
      Table(rest[target := Listed(rest, target) + t.index[key]],
            map x | x in t.paths :: if x in t.index[key] then Moved(from, to, t.paths[x]) else t.paths[x])
  }

  function VisitAll(t: Table, from: Path, to: Path, order: seq<Path>): Table {
    if order == [] then t
    else Visit(VisitAll(t, from, to, order[..|order|-1]), from, to, order[|order|-1])
  }

  predicate Covers(order: seq<Path>, index: map<Path, seq<Other>>) {
    forall k :: k in index ==> k in order
  }

  method Rename(t: Table, from: Path, to: Path, order: seq<Path>) returns (out: Table)
    ensures out == VisitAll(t, from, to, order)
  {
    out := t;
    for i := 0 to |order|
      invariant out == VisitAll(t, from, to, order[..i])
    {
      var key := order[i];
      assert order[..i+1][..i] == order[..i];
      if key in out.index && Under(from, key) {
        var moving := out.index[key];
        var target := Moved(from, to, key);
        var rest := out.index - {key};
        var paths := map x | x in out.paths ::
          if x in moving then Moved(from, to, out.paths[x]) else out.paths[x];
        out := Table(rest[target := Listed(rest, target) + moving], paths);
      }
    }
    assert order[..|order|] == order;
  }

  // ---------- the intended result ----------

  /** What a path's list should be: what was there and is not moved, then what moves in. */
  function TargetList(index: map<Path, seq<Other>>, from: Path, to: Path, p: Path): seq<Other> {
    (if Under(from, p) then [] else Listed(index, p)) +
    (if Under(to, p) then Listed(index, Moved(to, from, p)) else [])
  }

  ghost predicate Relocated(t: Table, t': Table, from: Path, to: Path) {
    && (forall p :: Listed(t'.index, p) == TargetList(t.index, from, to, p))
    && t'.paths == MovedPaths(t.paths, from, to)
  }

  function MovedPaths(paths: map<Other, Path>, from: Path, to: Path): map<Other, Path> {
    map x | x in paths :: Moved(from, to, paths[x])
  }

  // ---------- strings ----------

  lemma PrefixOfBoth(a: Path, b: Path, p: Path)
    requires Under(a, p) && Under(b, p)
    ensures Under(a, b) || Under(b, a)
  {
    if |a| <= |b| {
      assert a <= b by { assert p[..|a|] == a && p[..|b|] == b; }
      if |a| < |b| {
        assert p[|a|] == '/' by { assert (a + "/") <= p; }
        assert b[..|a|+1] == a + "/";
      }
    } else {
      assert b <= a by { assert p[..|a|] == a && p[..|b|] == b; }
      assert p[|b|] == '/' by { assert (b + "/") <= p; }
      assert a[..|b|+1] == b + "/";
    }
  }

  /** Under incomparable names, moving back and forth is the identity. */
  lemma MovedBack(from: Path, to: Path, p: Path)
    requires Under(from, p)
    ensures Under(to, Moved(from, to, p)) && Moved(to, from, Moved(from, to, p)) == p
  {
    MovedUnder(from, to, p);
    MovedSuffix(from, to, p);
    var q := Moved(from, to, p);
    if q == to { assert q[|to|..] == []; }
  }

  // ---------- order does not matter ----------

  /** A path's list once the keys in `seen` have been visited. */
  function Partly(index: map<Path, seq<Other>>, from: Path, to: Path, seen: set<Path>, p: Path): seq<Other> {
    (if Under(from, p) && p in seen then [] else Listed(index, p)) +
    (if Under(to, p) && Moved(to, from, p) in seen then Listed(index, Moved(to, from, p)) else [])
  }

  function PathField(p: Path, from: Path, to: Path, seen: set<Path>): Path {
    if p in seen then Moved(from, to, p) else p
  }

  ghost predicate Progress(t: Table, t': Table, from: Path, to: Path, seen: set<Path>) {
    && (forall p :: Listed(t'.index, p) == Partly(t.index, from, to, seen, p))
    && t'.paths.Keys == t.paths.Keys
    && (forall x :: x in t.paths ==> t'.paths[x] == PathField(t.paths[x], from, to, seen))
    && (forall p :: p in t'.index ==> t'.index[p] != [])
  }

  lemma MovedAway(from: Path, to: Path, p: Path)
    requires Incomparable(from, to) && Under(from, p)
    ensures !Under(to, p) && Under(to, Moved(from, to, p)) && !Under(from, Moved(from, to, p))
    ensures Moved(from, to, p) != p && Moved(to, from, Moved(from, to, p)) == p
  {
    MovedUnder(from, to, p);
    MovedBack(from, to, p);
    if Under(to, p) { PrefixOfBoth(from, to, p); }
    if Under(from, Moved(from, to, p)) { PrefixOfBoth(from, to, Moved(from, to, p)); }
  }

  /** Visiting one more key under `from` changes the expected list of that key and of its target only. */
  lemma PartlyStep(index: map<Path, seq<Other>>, from: Path, to: Path, seen: set<Path>, key: Path, p: Path)
    requires Incomparable(from, to) && Under(from, key) && key !in seen
    ensures var target := Moved(from, to, key);
            && Partly(index, from, to, seen, key) == Listed(index, key)
            && Partly(index, from, to, seen + {key}, key) == []
            && Partly(index, from, to, seen + {key}, target)
               == Partly(index, from, to, seen, target) + Listed(index, key)
            && (p != key && p != target ==>
                  Partly(index, from, to, seen + {key}, p) == Partly(index, from, to, seen, p))
  {
    MovedAway(from, to, key);
    if Under(to, p) { MovedBack(to, from, p); }
  }

  /** Visiting a key not under `from`, or a key again, changes no expected list. */
  lemma PartlySame(index: map<Path, seq<Other>>, from: Path, to: Path, seen: set<Path>, key: Path, p: Path)
    requires !Under(from, key) || key in seen || Listed(index, key) == []
    ensures Partly(index, from, to, seen + {key}, p) == Partly(index, from, to, seen, p)
  {
    if Under(to, p) { MovedUnder(to, from, p); }
  }

  lemma PathSame(p: Path, from: Path, to: Path, seen: set<Path>, key: Path)
    requires !Under(from, key) || key in seen || p != key
    ensures PathField(p, from, to, seen + {key}) == PathField(p, from, to, seen)
  {
    if p == key { MovedUnder(from, to, key); }
  }

  lemma VisitMoves(t: Table, t': Table, from: Path, to: Path, seen: set<Path>, key: Path)
    requires IndexOk(t.index, t.paths) && Incomparable(from, to) && Progress(t, t', from, to, seen)
    requires Under(from, key) && key in t'.index && key !in seen
    ensures Progress(t, Visit(t', from, to, key), from, to, seen + {key})
  {
    var t2 := Visit(t', from, to, key);
    forall p ensures Listed(t2.index, p) == Partly(t.index, from, to, seen + {key}, p) {
      ListVisited(t, t', from, to, seen, key, p);
    }
    forall x | x in t.paths ensures t2.paths[x] == PathField(t.paths[x], from, to, seen + {key}) {
      PathVisited(t, t', from, to, seen, key, x);
    }
  }

  lemma ListVisited(t: Table, t': Table, from: Path, to: Path, seen: set<Path>, key: Path, p: Path)
    requires Incomparable(from, to) && Progress(t, t', from, to, seen)
    requires Under(from, key) && key in t'.index && key !in seen
    ensures Listed(Visit(t', from, to, key).index, p) == Partly(t.index, from, to, seen + {key}, p)
  {
    var target := Moved(from, to, key);
    PartlyStep(t.index, from, to, seen, key, p);
    MovedAway(from, to, key);
    assert Listed(t'.index, p) == Partly(t.index, from, to, seen, p);
    assert Listed(t'.index, key) == Listed(t.index, key);
    assert Listed(t'.index, target) == Partly(t.index, from, to, seen, target);
  }

  lemma PathVisited(t: Table, t': Table, from: Path, to: Path, seen: set<Path>, key: Path, x: Other)
    requires IndexOk(t.index, t.paths) && Incomparable(from, to) && Progress(t, t', from, to, seen)
    requires Under(from, key) && key in t'.index && key !in seen && x in t.paths
    ensures Visit(t', from, to, key).paths[x] == PathField(t.paths[x], from, to, seen + {key})
  {
    PartlyStep(t.index, from, to, seen, key, key);
    assert t'.index[key] == Listed(t'.index, key) == Listed(t.index, key);
    ListedExactly(t.index, t.paths, key);
    if t.paths[x] != key { PathSame(t.paths[x], from, to, seen, key); }
  }

  lemma VisitKeeps(t: Table, t': Table, from: Path, to: Path, seen: set<Path>, key: Path)
    requires IndexOk(t.index, t.paths) && Incomparable(from, to) && Progress(t, t', from, to, seen)
    ensures Progress(t, Visit(t', from, to, key), from, to, seen + {key})
  {
    if Under(from, key) && key in t'.index && key !in seen {
      VisitMoves(t, t', from, to, seen, key);
    } else {
      VisitIdle(t, t', from, to, seen, key);
    }
  }

  lemma VisitIdle(t: Table, t': Table, from: Path, to: Path, seen: set<Path>, key: Path)
    requires IndexOk(t.index, t.paths) && Incomparable(from, to) && Progress(t, t', from, to, seen)
    requires !(Under(from, key) && key in t'.index && key !in seen)
    ensures Visit(t', from, to, key) == t' && Progress(t, t', from, to, seen + {key})
  {
    assert Listed(t'.index, key) == Partly(t.index, from, to, seen, key);
    if Under(from, key) { MovedAway(from, to, key); }
    assert !Under(from, key) || key in seen || Listed(t.index, key) == [];
    ListedExactly(t.index, t.paths, key);
    forall p ensures Listed(t'.index, p) == Partly(t.index, from, to, seen + {key}, p) {
      PartlySame(t.index, from, to, seen, key, p);
    }
    forall x | x in t.paths ensures t'.paths[x] == PathField(t.paths[x], from, to, seen + {key}) {
      PathSame(t.paths[x], from, to, seen, key);
    }
  }

  function Keys(order: seq<Path>): set<Path> { set k | k in order }

  lemma {:induction false} VisitAllProgress(t: Table, from: Path, to: Path, order: seq<Path>)
    requires IndexOk(t.index, t.paths) && Incomparable(from, to)
    ensures Progress(t, VisitAll(t, from, to, order), from, to, Keys(order))
  {
    if order == [] {
      assert VisitAll(t, from, to, order) == t;
      assert Keys(order) == {};
    } else {
      var init, last := order[..|order|-1], order[|order|-1];
      VisitAllProgress(t, from, to, init);
      VisitKeeps(t, VisitAll(t, from, to, init), from, to, Keys(init), last);
      assert order == init + [last];
      assert Keys(order) == Keys(init) + {last};
    }
  }

  /**
   For incomparable names every walk, revisits included, gives the same table: each
   path holds what was there and not moved, followed by what moved in.
   */
  lemma RenameRelocates(t: Table, from: Path, to: Path, order: seq<Path>)
    requires IndexOk(t.index, t.paths) && Incomparable(from, to) && Covers(order, t.index)
    ensures Relocated(t, VisitAll(t, from, to, order), from, to)
  {
    VisitAllProgress(t, from, to, order);
    var t' := VisitAll(t, from, to, order);
    forall p ensures Listed(t'.index, p) == TargetList(t.index, from, to, p) {
      if p !in Keys(order) { assert p !in t.index; }
      if Moved(to, from, p) !in Keys(order) { assert Moved(to, from, p) !in t.index; }
    }
    forall x | x in t.paths ensures t'.paths[x] == Moved(from, to, t.paths[x]) {
      assert t.paths[x] in t.index;
    }
  }

  lemma ConcatNoDup(a: seq<Other>, b: seq<Other>)
    requires NoDup(a) && NoDup(b) && forall x :: x in a ==> x !in b
    ensures NoDup(a + b)
  {
    forall i, j | 0 <= i < j < |a + b| ensures (a + b)[i] != (a + b)[j] {
      if i < |a| <= j { assert a[i] in a && b[j - |a|] in b; }
    }
  }

  lemma TargetExact(t: Table, from: Path, to: Path, p: Path)
    requires IndexOk(t.index, t.paths) && Incomparable(from, to)
    ensures NoDup(TargetList(t.index, from, to, p))
    ensures Under(from, p) ==> TargetList(t.index, from, to, p) == []
    ensures forall x :: x in TargetList(t.index, from, to, p) <==> x in t.paths && Moved(from, to, t.paths[x]) == p
  {
    ListedExactly(t.index, t.paths, p);
    ListedExactly(t.index, t.paths, Moved(to, from, p));
    if Under(from, p) { MovedAway(from, to, p); }
    if Under(to, p) {
      MovedAway(to, from, p);
      ConcatNoDup(Listed(t.index, p), Listed(t.index, Moved(to, from, p)));
    }
    forall x | x in t.paths
      ensures Moved(from, to, t.paths[x]) == p <==>
        (!Under(from, p) && t.paths[x] == p) || (Under(to, p) && t.paths[x] == Moved(to, from, p))
    {
      MovedUnder(from, to, t.paths[x]);
      if Under(from, t.paths[x]) { MovedAway(from, to, t.paths[x]); }
    }
  }

  /** The relocated index still lists every entry under its own path, and nothing under `from`. */
  lemma RenameIndexOk(t: Table, from: Path, to: Path, order: seq<Path>)
    requires IndexOk(t.index, t.paths) && Incomparable(from, to) && Covers(order, t.index)
    ensures var t' := VisitAll(t, from, to, order);
            IndexOk(t'.index, t'.paths) && forall p :: Under(from, p) ==> p !in t'.index
  {
    var t' := VisitAll(t, from, to, order);
    RenameRelocates(t, from, to, order);
    VisitAllProgress(t, from, to, order);
    forall p ensures NoDup(Listed(t'.index, p)) && (Under(from, p) ==> p !in t'.index)
      ensures forall x :: x in Listed(t'.index, p) <==> x in t'.paths && t'.paths[x] == p
    {
      TargetExact(t, from, to, p);
      assert Listed(t'.index, p) == TargetList(t.index, from, to, p);
      assert p in t'.index ==> t'.index[p] != [];
    }
    ExactIsIndexOk(t'.index, t'.paths);
  }

  lemma ExactIsIndexOk(index: map<Path, seq<Other>>, paths: map<Other, Path>)
    requires forall p :: p in index ==> index[p] != []
    requires forall p :: NoDup(Listed(index, p))
    requires forall p, x :: x in Listed(index, p) <==> x in paths && paths[x] == p
    ensures IndexOk(index, paths)
  {
    forall p | p in index ensures NoDup(index[p]) { assert NoDup(Listed(index, p)); }
    forall p, x | p in index && x in index[p] ensures x in paths && paths[x] == p { assert x in Listed(index, p); }
    forall x | x in paths ensures paths[x] in index && x in index[paths[x]] { assert x in Listed(index, paths[x]); }
  }

  // ---------- exactly when order does not matter ----------

  ghost predicate OrderIrrelevant(from: Path, to: Path) {
    forall t: Table, a, b :: IndexOk(t.index, t.paths) && Covers(a, t.index) && Covers(b, t.index) ==>
      VisitAll(t, from, to, a) == VisitAll(t, from, to, b)
  }

  lemma SameLists(a: map<Path, seq<Other>>, b: map<Path, seq<Other>>)
    requires forall p :: Listed(a, p) == Listed(b, p)
    requires (forall p :: p in a ==> a[p] != []) && (forall p :: p in b ==> b[p] != [])
    ensures a == b
  {
    forall p ensures p in a <==> p in b { assert Listed(a, p) == Listed(b, p); }
    forall p | p in a ensures a[p] == b[p] { assert Listed(a, p) == Listed(b, p); }
  }

  lemma SamePathVisit(t: Table, p: Path, order: seq<Path>)
    requires IndexOk(t.index, t.paths)
    ensures VisitAll(t, p, p, order) == t
  {
    if order != [] {
      SamePathVisit(t, p, order[..|order|-1]);
      var key := order[|order|-1];
      if key in t.index && Under(p, key) {
        SelfMove(p, key);
        var rest := t.index - {key};
        assert Listed(rest, key) + t.index[key] == t.index[key];
        forall x | x in t.paths && x in t.index[key] ensures t.paths[x] == key {}
        assert rest[key := t.index[key]] == t.index;
      }
    }
  }

  lemma SelfMove(p: Path, key: Path)
    requires Under(p, key)
    ensures Moved(p, p, key) == key
  {
    if key != p { assert key[..|p|] == p by { assert (p + "/")[..|p|] == p; } }
  }

  lemma OneKeyTable(key: Path)
    ensures IndexOk(map[key := [1]], map[1 := key])
  {}

  lemma TwoWalks(from: Path, to: Path, key: Path)
    requires Under(from, key) && Under(from, Moved(from, to, key))
    requires Moved(from, to, Moved(from, to, key)) != Moved(from, to, key)
    ensures !OrderIrrelevant(from, to)
  {
    var t := Table(map[key := [1]], map[1 := key]);
    var mid := Moved(from, to, key);
    OneKeyTable(key);
    var once, twice := [key], [key, mid];
    assert once[..|once|-1] == [] && twice[..|twice|-1] == once;
    assert VisitAll(t, from, to, []) == t;
    var t1 := VisitAll(t, from, to, once);
    assert t1 == Visit(t, from, to, key);
    assert t1.paths[1] == mid && 1 in t1.index[mid];
    assert VisitAll(t, from, to, twice).paths[1] == Moved(from, to, mid);
  }

  /** Some walk order changes the result exactly for distinct comparable names. */
  lemma OrderIrrelevantIff(from: Path, to: Path)
    ensures OrderIrrelevant(from, to) <==> from == to || Incomparable(from, to)
  {
    if from == to {
      forall t: Table, a, b | IndexOk(t.index, t.paths) && Covers(a, t.index) && Covers(b, t.index)
        ensures VisitAll(t, from, to, a) == VisitAll(t, from, to, b)
      {
        SamePathVisit(t, from, a);
        SamePathVisit(t, from, b);
      }
    } else if Incomparable(from, to) {
      forall t: Table, a, b | IndexOk(t.index, t.paths) && Covers(a, t.index) && Covers(b, t.index)
        ensures VisitAll(t, from, to, a) == VisitAll(t, from, to, b)
      {
        WalksAgree(t, from, to, a, b);
      }
    } else if Under(from, to) {
      assert Moved(from, to, from) == to;
      assert |Moved(from, to, to)| > |to|;
      TwoWalks(from, to, from);
    } else {
      var key := from + from[|to|..];
      assert from[|to|] == '/' by { assert (to + "/") <= from; }
      assert key[..|from|+1] == from + "/";
      assert key[|from|..] == from[|to|..];
      assert to + from[|to|..] == from by { assert from[..|to|] == to by { assert (to + "/")[..|to|] == to; } }
      TwoWalks(from, to, key);
    }
  }

  lemma WalksAgree(t: Table, from: Path, to: Path, a: seq<Path>, b: seq<Path>)
    requires IndexOk(t.index, t.paths) && Incomparable(from, to) && Covers(a, t.index) && Covers(b, t.index)
    ensures VisitAll(t, from, to, a) == VisitAll(t, from, to, b)
  {
    RenameRelocates(t, from, to, a);
    RenameRelocates(t, from, to, b);
    RenameIndexOk(t, from, to, a);
    RenameIndexOk(t, from, to, b);
    var ta, tb := VisitAll(t, from, to, a), VisitAll(t, from, to, b);
    forall p ensures Listed(ta.index, p) == Listed(tb.index, p) {
      assert Listed(ta.index, p) == TargetList(t.index, from, to, p);
    }
    SameLists(ta.index, tb.index);
  }
}
