/**
 One counter for every cached byte (facetcache/item.go, janitor.go, fswrap.go).

 The type `Sound` says that the counter is the bytes of the live items plus the bytes
 of the index of closed files, and that no name is in both.  The cache is a variable of
 that type, so every operation keeps the law.
 Items are rows of a table keyed by identity, an operation is atomic where the code
 holds a lock across it, and idle times and the outcome of each system call are
 parameters.
 */
module CacheAccounting {
  import opened RangeSet
  import opened CacheContent
  import opened MapSums
  import opened ContentCache

  type Id = nat

  datatype DEntry = DEntry(atime: int, bytes: int)

  /** An item state whose ranges are in form. */
  type Good = s: State | s.Valid() witness State(false, false, [], [], 0, "", false, false)

  datatype Row = Row(name: Name, opens: int, atime: int, s: Good)

  type Items = map<Id, Row>
  type Registry = map<Name, Id>
  type Index = map<Name, DEntry>

  predicate Under(p: Name, name: Name) { p.path == name.path || name.path + "/" <= p.path }

  // ------------------------------------------------------------- the law

  ghost function Charges(items: Items): map<Id, int> { map i | i in items :: items[i].s.Charge() }

  ghost function Sizes(index: Index): map<Name, int> { map n | n in index :: index[n].bytes }

  /** The counter is the live bytes plus the indexed bytes. */
  ghost predicate Balanced(items: Items, index: Index, cached: int) {
    cached == Sum(Charges(items)) + Sum(Sizes(index))
  }

  /** Every item still in use is the registered one of its name; a live one is not indexed. */
  ghost predicate Linked(items: Items, registry: Registry, index: Index) {
    && (forall n | n in registry :: registry[n] in items && items[registry[n]].name == n)
    && (forall i | i in items && !items[i].s.doomed :: items[i].name in registry && registry[items[i].name] == i)
    && (forall i | i in items && items[i].s.Live() :: items[i].name !in index && items[i].name.cacheable)
    && (forall n | n in index :: n.cacheable)
  }

  lemma ChargeMoves(items: Items, index: Index, cached: int, i: Id, row: Row)
    requires Balanced(items, index, cached)
    ensures Balanced(items[i := row], index, cached + row.s.Charge() - if i in items then items[i].s.Charge() else 0)
  {
    SumUpdate(Charges(items), i, row.s.Charge());
    assert Charges(items[i := row]) == Charges(items)[i := row.s.Charge()];
  }

  lemma DropIndexed(items: Items, index: Index, cached: int, n: Name)
    requires Balanced(items, index, cached)
    ensures Balanced(items, index - {n}, cached - if n in index then index[n].bytes else 0)
  {
    if n in index {
      SumWithout(Sizes(index), n);
      assert Sizes(index - {n}) == Sizes(index) - {n};
    } else {
      assert index - {n} == index;
    }
  }

  lemma AddIndexed(items: Items, index: Index, cached: int, n: Name, e: DEntry)
    requires Balanced(items, index, cached) && n !in index
    ensures Balanced(items, index[n := e], cached + e.bytes)
  {
    SumUpdate(Sizes(index), n, e.bytes);
    assert Sizes(index[n := e]) == Sizes(index)[n := e.bytes];
  }

  /** An item in use that has not been loaded. */
  predicate Cold(s: State) { !s.loaded && !s.doomed }

  /** A row may change as long as it does not come back to life, and what a cold row claims stays. */
  predicate Fades(was: Row, row: Row) {
    && row.name == was.name && (was.s.doomed ==> row.s.doomed) && (row.s.Live() ==> was.s.Live())
    && (Cold(row.s) ==> Cold(was.s) && row.s.rs == was.s.rs)
  }

  lemma LinksKept(items: Items, registry: Registry, index: Index, i: Id, row: Row)
    requires Linked(items, registry, index) && i in items && Fades(items[i], row)
    ensures Linked(items[i := row], registry, index)
  {}

  lemma StoppedLinks(items: Items, registry: Registry, index: Index, i: Id, row: Row)
    requires Linked(items, registry, index) && i in items && Cold(items[i].s)
    requires Cold(row.s) && row.name == items[i].name
    ensures Linked(items[i := row], registry, index)
  {}

  /** Loading moves a name from the index to the live items. */
  lemma LoadLinks(items: Items, registry: Registry, index: Index, i: Id, row: Row)
    requires Linked(items, registry, index) && i in items && !items[i].s.doomed
    requires row.name == items[i].name && row.s.Live() && row.name.cacheable
    ensures Linked(items[i := row], registry, index - {row.name})
  {}

  lemma LoadBalanced(items: Items, index: Index, cached: int, i: Id, row: Row, cached': int)
    requires Balanced(items, index, cached) && i in items && !items[i].s.loaded
    requires cached' == cached + row.s.Charge() - if row.name in index then index[row.name].bytes else 0
    ensures Balanced(items[i := row], index - {row.name}, cached')
  {
    DropIndexed(items, index, cached, row.name);
    ChargeMoves(items, index - {row.name}, cached' - row.s.Charge(), i, row);
  }

  function ClosedRow(row: Row): Row { row.(s := row.s.(loaded := false, doomed := true)) }

  /** What shutting a row down leaves in the index. */
  function IndexAfter(index: Index, row: Row): Index {
    if row.s.Live() then index[row.name := DEntry(row.atime, |Bytes(row.s.rs)|)] else index
  }

  lemma ShutdownLinks(items: Items, registry: Registry, index: Index, i: Id)
    requires Linked(items, registry, index) && i in items
    ensures Linked(items[i := ClosedRow(items[i])], registry, IndexAfter(index, items[i]))
  {
    var items' := items[i := ClosedRow(items[i])];
    forall k | k in items' && items'[k].s.Live() ensures items'[k].name !in IndexAfter(index, items[i]) {
      assert k != i && registry[items[k].name] == k;
    }
  }

  lemma ShutdownBalanced(items: Items, registry: Registry, index: Index, cached: int, i: Id)
    requires Linked(items, registry, index) && Balanced(items, index, cached) && i in items
    ensures Balanced(items[i := ClosedRow(items[i])], IndexAfter(index, items[i]), cached)
  {
    var row := items[i];
    ChargeMoves(items, index, cached, i, ClosedRow(row));
    if row.s.Live() {
      var entry := DEntry(row.atime, |Bytes(row.s.rs)|);
      AddIndexed(items[i := ClosedRow(row)], index, cached - row.s.Charge(), row.name, entry);
    }
  }

  /** A name may leave the registry once its item is doomed. */
  lemma UnregisterLinks(items: Items, registry: Registry, index: Index, n: Name)
    requires Linked(items, registry, index) && (n in registry ==> items[registry[n]].s.doomed)
    ensures Linked(items, registry - {n}, index)
  {
    forall i | i in items && !items[i].s.doomed
      ensures items[i].name in registry - {n} && (registry - {n})[items[i].name] == i
    {
      assert registry[items[i].name] == i;
    }
  }

  lemma RegisterLinks(items: Items, registry: Registry, index: Index, i: Id, row: Row)
    requires Linked(items, registry, index) && i !in items && row.name !in registry && !row.s.loaded
    ensures Linked(items[i := row], registry[row.name := i], index)
  {
    var items', registry' := items[i := row], registry[row.name := i];
    forall k | k in items' && !items'[k].s.doomed
      ensures items'[k].name in registry' && registry'[items'[k].name] == k
    {
      if k != i { assert registry[items[k].name] == k; }
    }
  }

  // ------------------------------------------------------------- the loads

  /** A load that read its metadata: whether it got past the resize, and what the item then claims. */
  datatype Load = Load(i: Id, st: Stat, meta: Metadata, done: bool, claims: set<int>)

  /** What the last load of `i` left claimed. */
  function LastClaims(loads: seq<Load>, i: Id): set<int> {
    if loads == [] then {}
    else if loads[|loads| - 1].i == i then loads[|loads| - 1].claims
    else LastClaims(loads[..|loads| - 1], i)
  }

  /** No load of `i` has got past its resize. */
  ghost predicate NoneDone(loads: seq<Load>, i: Id) { forall k | 0 <= k < |loads| && loads[k].i == i :: !loads[k].done }

  /** A cold item claims what the last load of it left, and none of its loads was done. */
  ghost predicate ColdClean(items: Items, loads: seq<Load>) {
    forall i | i in items && Cold(items[i].s) :: Bytes(items[i].s.rs) == LastClaims(loads, i) && NoneDone(loads, i)
  }

  /** Every load is of an item made before, and an item's loads stop until one is done, each going on from the last. */
  ghost predicate LoadsOk(loads: seq<Load>, nextId: Id) {
    forall j | 0 <= j < |loads| ::
      && loads[j].i < nextId && NoneDone(loads[..j], loads[j].i)
      && loads[j].claims == LoadedBytes(LastClaims(loads[..j], loads[j].i), loads[j].st, loads[j].meta)
  }

  lemma {:induction false} NeverLoaded(loads: seq<Load>, nextId: Id)
    requires LoadsOk(loads, nextId)
    ensures LastClaims(loads, nextId) == {} && NoneDone(loads, nextId)
  {
    if loads != [] {
      var most := loads[..|loads| - 1];
      forall j | 0 <= j < |most| ensures most[..j] == loads[..j] && most[j] == loads[j] {}
      NeverLoaded(most, nextId);
    }
  }

  lemma LoadsMore(loads: seq<Load>, nextId: Id, more: Load)
    requires LoadsOk(loads, nextId) && more.i < nextId && NoneDone(loads, more.i)
    requires more.claims == LoadedBytes(LastClaims(loads, more.i), more.st, more.meta)
    ensures LoadsOk(loads + [more], nextId)
  {
    var all := loads + [more];
    forall j | 0 <= j < |all| ensures all[..j] == if j < |loads| then loads[..j] else loads {}
  }

  lemma ColdKept(items: Items, loads: seq<Load>, i: Id, row: Row)
    requires ColdClean(items, loads)
    requires Cold(row.s) ==> Bytes(row.s.rs) == LastClaims(loads, i) && NoneDone(loads, i)
    ensures ColdClean(items[i := row], loads)
  {}

  /** A load changes its own row only, and whatever it leaves in a cold row it has recorded. */
  lemma ColdLoaded(items: Items, loads: seq<Load>, i: Id, row: Row, load: Load)
    requires ColdClean(items, loads) && i in items && Cold(items[i].s) && load.i == i
    requires Cold(row.s) ==> !load.done && load.claims == Bytes(row.s.rs)
    ensures ColdClean(items[i := row], loads + [load])
  {
    var items', all := items[i := row], loads + [load];
    assert all[..|loads|] == loads;
    forall k | k in items' && Cold(items'[k].s)
      ensures Bytes(items'[k].s.rs) == LastClaims(all, k) && NoneDone(all, k)
    {
      assert NoneDone(loads, k);
    }
  }

  // ------------------------------------------------------------ the cache

  /** The cache, and the history of its loads. */
  datatype Account = Account(items: Items, nextId: Id, registry: Registry, index: Index, cachedBytes: int,
                             loads: seq<Load>)

  function Empty(): (a: Account)
    ensures Lawful(a)
  {
    assert Charges(map[]) == map[] && Sizes(map[]) == map[];
    Account(map[], 0, map[], map[], 0, [])
  }

  ghost predicate Lawful(a: Account) {
    && Linked(a.items, a.registry, a.index) && Balanced(a.items, a.index, a.cachedBytes)
    && (forall i | i in a.items :: i < a.nextId)
    && ColdClean(a.items, a.loads) && LoadsOk(a.loads, a.nextId)
  }

  type Sound = a: Account | Lawful(a) witness Empty()

  // The changes the operations are made of, each of which keeps the law.

  /** A row is replaced by one with the same name and the counter moves by as much. */
  function Replaced(a: Sound, i: Id, row: Row, delta: int): Sound
    requires i in a.items && Fades(a.items[i], row) && delta == row.s.Charge() - a.items[i].s.Charge()
  {
    ChargeMoves(a.items, a.index, a.cachedBytes, i, row);
    LinksKept(a.items, a.registry, a.index, i, row);
    ColdKept(a.items, a.loads, i, row);
    a.(items := a.items[i := row], cachedBytes := a.cachedBytes + delta)
  }

  function Indexed(index: Index, n: Name): int { if n in index then index[n].bytes else 0 }

  /** What `load` makes of a cold row. */
  ghost predicate LoadsFrom(was: Row, row: Row, load: Load) {
    && Cold(was.s) && row == was.(s := row.s) && row.s.loaded == load.done && !row.s.doomed
    && load.claims == Bytes(row.s.rs) == LoadedBytes(Bytes(was.s.rs), load.st, load.meta)
  }

  lemma LoadClaims(a: Sound, i: Id, row: Row, load: Load)
    requires i in a.items && LoadsFrom(a.items[i], row, load) && load.i == i
    ensures LoadsOk(a.loads + [load], a.nextId)
  {
    LoadsMore(a.loads, a.nextId, load);
  }

  /** A load that stops at its resize leaves its claims in the row, which stays cold. */
  function LoadStopped(a: Sound, i: Id, row: Row, load: Load): Sound
    requires i in a.items && LoadsFrom(a.items[i], row, load) && load.i == i && !load.done
  {
    ChargeMoves(a.items, a.index, a.cachedBytes, i, row);
    StoppedLinks(a.items, a.registry, a.index, i, row);
    ColdLoaded(a.items, a.loads, i, row, load);
    LoadClaims(a, i, row, load);
    a.(items := a.items[i := row], loads := a.loads + [load])
  }

  /** A cold row comes to life with `bytes` held and takes over what the index had for its name. */
  function CameAlive(a: Sound, i: Id, row: Row, load: Load, bytes: int): Sound
    requires i in a.items && LoadsFrom(a.items[i], row, load) && load.i == i && load.done
    requires row.name.cacheable && bytes == row.s.Charge()
  {
    var cached := a.cachedBytes + bytes - Indexed(a.index, row.name);
    LoadLinks(a.items, a.registry, a.index, i, row);
    LoadBalanced(a.items, a.index, a.cachedBytes, i, row, cached);
    ColdLoaded(a.items, a.loads, i, row, load);
    LoadClaims(a, i, row, load);
    a.(items := a.items[i := row], index := a.index - {row.name}, cachedBytes := cached, loads := a.loads + [load])
  }

  /** A row is shut down, and the index becomes `index`. */
  function ShutDown(a: Sound, i: Id, index: Index): Sound
    requires i in a.items && index == IndexAfter(a.index, a.items[i])
  {
    ShutdownLinks(a.items, a.registry, a.index, i);
    ShutdownBalanced(a.items, a.registry, a.index, a.cachedBytes, i);
    ColdKept(a.items, a.loads, i, ClosedRow(a.items[i]));
    a.(items := a.items[i := ClosedRow(a.items[i])], index := index)
  }

  function Unregistered(a: Sound, n: Name): Sound
    requires n in a.registry ==> a.items[a.registry[n]].s.doomed
  {
    UnregisterLinks(a.items, a.registry, a.index, n);
    a.(registry := a.registry - {n})
  }

  function Registered(a: Sound, row: Row): Sound
    requires row.name !in a.registry && !row.s.loaded && row.s.rs == []
  {
    ChargeMoves(a.items, a.index, a.cachedBytes, a.nextId, row);
    NeverLoaded(a.loads, a.nextId);
    ColdKept(a.items, a.loads, a.nextId, row);
    RegisterLinks(a.items, a.registry, a.index, a.nextId, row);
    a.(items := a.items[a.nextId := row], nextId := a.nextId + 1, registry := a.registry[row.name := a.nextId])
  }

  function Unindexed(a: Sound, n: Name, bytes: int): Sound
    requires n in a.index && bytes == a.index[n].bytes
  {
    DropIndexed(a.items, a.index, a.cachedBytes, n);
    a.(index := a.index - {n}, cachedBytes := a.cachedBytes - bytes)
  }

  /** A new, cold item. */
  function Blank(n: Name): Row { Row(n, 0, 0, State(false, false, [], [], 0, "", false, false)) }

  /** The row a request for a name works on: the registered one or a new one. */
  function RowOf(a: Sound, n: Name): Row { if n in a.registry then a.items[a.registry[n]] else Blank(n) }

  /** A load of this row gets as far as its metadata. */
  predicate Reaches(row: Row, fileOk: bool) { Cold(row.s) && row.name.cacheable && fileOk }

  /** An open that succeeds pins a live row; one that fails leaves the pins as they were. */
  predicate OpenedRow(was: Row, ok: bool, row: Row) {
    row.name == was.name && (ok <==> row.s.Live()) && row.opens == was.opens + if ok then 1 else 0
  }

  /** What the row claims and what its file is after a load that read its metadata. */
  ghost predicate LoadedRow(was: Row, file: seq<Byte>, st: Stat, meta: Metadata, resizeOk: bool, row: Row) {
    && row.s.loaded == resizeOk && !row.s.doomed && row.s.size == st.size
    && Bytes(row.s.rs) == LoadedBytes(Bytes(was.s.rs), st, meta)
    && row.s.fd == if resizeOk then Resized(file, st.size) else file
  }

  /** Only the state of row `i` differs. */
  predicate OnlyState(a: Account, i: Id, a': Account) {
    && i in a.items && i in a'.items
    && a' == a.(items := a.items[i := a.items[i].(s := a'.items[i].s)], cachedBytes := a'.cachedBytes)
  }

  class Cfs {
    var a: Sound

    constructor ()
      ensures a == Empty()
    {
      a := Empty();
    }

    /** Replaces an item's state and moves the counter by as much. */
    method Update(i: Id, s: Good, delta: int)
      requires i in a.items && Fades(a.items[i], a.items[i].(s := s)) && delta == s.Charge() - a.items[i].s.Charge()
      modifies this
      ensures OnlyState(old(a), i, a) && a.items[i].s == s
    {
      a := Replaced(a, i, a.items[i].(s := s), delta);
    }

    /** Publishes fetched bytes where the item has none. */
    method WriteNoOverwrite(i: Id, p: seq<Byte>, off: nat, writes: nat, part: nat) returns (skipped: int, ok: bool)
      requires i in a.items
      modifies this
      ensures OnlyState(old(a), i, a)
      ensures var s, s' := old(a).items[i].s, a.items[i].s;
              && (!s.Live() ==> !ok && s' == s)
              && (ok ==> forall bk :: Published(s.Content(bk), Fill(off, p), s'.Content(bk)))
              && (!ok ==> forall bk :: FailedPublish(s.Content(bk), Fill(off, p), s'.Content(bk)))
    {
      var s := a.items[i].s;
      if s.doomed || !s.loaded { return 0, false; }
      var s', written;
      s', skipped, written, ok := Filled(s, p, off, writes, part);
      Update(i, s', written);
    }

    /** The backend has accepted `p` at `off`; the copy follows, or gives the range up. */
    method MirrorWrite(i: Id, p: seq<Byte>, off: nat, ok: bool, part: nat)
      requires i in a.items
      modifies this
      ensures OnlyState(old(a), i, a)
      ensures var s, s' := old(a).items[i].s, a.items[i].s;
              if p == [] || !s.Live() then s' == s
              else if ok then forall bk :: s'.Content(Written(bk, off, p)) == AfterWrite(s.Content(bk), off, p)
              else forall bk :: FailedMirror(s.Content(bk), off, p, s'.Content(Written(bk, off, p)))
    {
      var s := a.items[i].s;
      if |p| == 0 || s.doomed || !s.loaded { return; }
      var s', delta;
      if ok {
        s', delta := Mirrored(s, p, off);
      } else {
        s', delta := Unmirrored(s, p, off, part);
      }
      Update(i, s', delta);
    }

    /** The backend has accepted a resize; a copy that cannot follow is given up. */
    method Truncate(i: Id, n: nat, ok: bool)
      requires i in a.items
      modifies this
      ensures OnlyState(old(a), i, a)
      ensures var s, s' := old(a).items[i].s, a.items[i].s;
              if !s.Live() then s' == s
              else if !ok then s' == s.(doomed := true)
              else Near(Bytes(s.rs)) ==> forall bk :: s'.Content(Resized(bk, n)) == AfterTruncate(s.Content(bk), n)
    {
      var s := a.items[i].s;
      if s.doomed || !s.loaded { return; }
      if !ok {
        DoomLocked(i);
        return;
      }
      var s', delta := Truncated(s, n);
      Update(i, s', delta);
    }

    /** Gives up what is held behind the read head. */
    method PunchItem(i: Id, cut: int, align: int, punches: nat)
      requires i in a.items && align > 0
      modifies this
      ensures OnlyState(old(a), i, a)
      ensures var s, s' := old(a).items[i].s, a.items[i].s;
              && (!s.Live() ==> s' == s)
              && (forall bk :: Punched(s.Content(bk), Bytes(s.rs) - Bytes(s'.rs), s'.Content(bk)))
              && (forall b | b in Bytes(s.rs) && cut <= b :: b in Bytes(s'.rs))
    {
      var s := a.items[i].s;
      if !s.loaded || s.doomed { return; }
      var s', freed, whole := PunchedOut(s, cut, align, punches);
      Update(i, s', -freed);
    }

    method DoomLocked(i: Id)
      requires i in a.items
      modifies this
      ensures OnlyState(old(a), i, a) && a.items[i].s == old(a).items[i].s.(doomed := true)
    {
      var s := a.items[i].s;
      if s.doomed { return; }
      var n := 0;
      if s.loaded { n := Size(s.rs); }
      Update(i, s.(doomed := true), -n);
    }

    /**
     Loads a cold item and takes its bytes over from the index.  `file` is the data file
     as it is found.  A load that fails at the resize leaves its claims behind.
     */
    method EnsureLoaded(i: Id, file: seq<Byte>, st: Stat, meta: Metadata, fileOk: bool, resizeOk: bool)
      returns (ok: bool)
      requires i in a.items && WfMetadata(meta)
      modifies this
      ensures i in a.items && a.items == old(a).items[i := a.items[i]]
      ensures a.registry == old(a).registry && a.nextId == old(a).nextId
      ensures ok <==> a.items[i].s.Live()
      ensures !Reaches(old(a).items[i], fileOk) ==> a == old(a)
      ensures Reaches(old(a).items[i], fileOk) ==> ok == resizeOk && a.items[i] == old(a).items[i].(s := a.items[i].s)
      ensures Reaches(old(a).items[i], fileOk) ==> LoadedRow(old(a).items[i], file, st, meta, resizeOk, a.items[i])
      ensures Reaches(old(a).items[i], fileOk) ==>
        a.loads == old(a).loads + [Load(i, st, meta, resizeOk, Bytes(a.items[i].s.rs))]
      ensures var alive := Reaches(old(a).items[i], fileOk) && resizeOk;
        a.index == if alive then old(a).index - {old(a).items[i].name} else old(a).index
    {
      var row := a.items[i];
      if row.s.doomed { return false; }
      if row.s.loaded { return true; }
      if !row.name.cacheable || !fileOk { return false; }
      var s := ReadMetadata(row.s, file, st, meta);
      var load := Load(i, st, meta, resizeOk, Bytes(s.rs));
      if !resizeOk {
        a := LoadStopped(a, i, row.(s := s), load);
        return false;
      }
      s := s.(fd := Resized(file, st.size), loaded := true);
      var n := Size(s.rs);
      a := CameAlive(a, i, row.(s := s), load, n);
      return true;
    }

    /** Hands a live item's bytes over to the index; the caller has flushed. */
    method Shutdown(i: Id)
      requires i in a.items
      modifies this
      ensures var row := old(a).items[i];
        a == old(a).(items := old(a).items[i := ClosedRow(row)], index := IndexAfter(old(a).index, row))
    {
      var row := a.items[i];
      var index := a.index;
      if row.s.loaded && !row.s.doomed {
        var n := Size(row.s.rs);
        index := index[row.name := DEntry(row.atime, n)];
      }
      a := ShutDown(a, i, index);
    }

    /** Finds or creates the item of a name and pins it. */
    method PinItem(n: Name) returns (i: Id)
      modifies this
      ensures i in a.items && a.items[i] == RowOf(old(a), n).(opens := RowOf(old(a), n).opens + 1)
      ensures a.registry == old(a).registry[n := i] && (n in old(a).registry ==> i == old(a).registry[n])
      ensures a.loads == old(a).loads && a.index == old(a).index && a.cachedBytes == old(a).cachedBytes
    {
      if n in a.registry { i := PinHeld(n); } else { i := PinNew(n); }
    }

    method PinHeld(n: Name) returns (i: Id)
      requires n in a.registry
      modifies this
      ensures i == old(a).registry[n] && i in a.items && a.registry == old(a).registry[n := i]
      ensures a.items[i] == old(a).items[i].(opens := old(a).items[i].opens + 1)
      ensures a.loads == old(a).loads && a.index == old(a).index && a.cachedBytes == old(a).cachedBytes
    {
      i := a.registry[n];
      assert a.registry[n := i] == a.registry;
      a := Replaced(a, i, a.items[i].(opens := a.items[i].opens + 1), 0);
    }

    method PinNew(n: Name) returns (i: Id)
      requires n !in a.registry
      modifies this
      ensures i in a.items && a.items[i] == Blank(n).(opens := 1) && a.registry == old(a).registry[n := i]
      ensures a.loads == old(a).loads && a.index == old(a).index && a.cachedBytes == old(a).cachedBytes
    {
      i := a.nextId;
      a := Registered(a, Blank(n).(opens := 1));
    }

    /** Pins the item of a name, loading it if it is cold; a failed load is unpinned again. */
    method OpenItem(n: Name, file: seq<Byte>, st: Stat, meta: Metadata, fileOk: bool, resizeOk: bool)
      returns (i: Id, ok: bool)
      requires WfMetadata(meta)
      modifies this
      ensures i in a.items && a.registry == old(a).registry[n := i]
      ensures n in old(a).registry ==> i == old(a).registry[n]
      ensures OpenedRow(RowOf(old(a), n), ok, a.items[i])
      ensures Reaches(RowOf(old(a), n), fileOk) ==>
        ok == resizeOk && LoadedRow(RowOf(old(a), n), file, st, meta, resizeOk, a.items[i])
      ensures Reaches(RowOf(old(a), n), fileOk) ==>
        a.loads == old(a).loads + [Load(i, st, meta, resizeOk, Bytes(a.items[i].s.rs))]
      ensures !Reaches(RowOf(old(a), n), fileOk) ==> a.loads == old(a).loads && a.cachedBytes == old(a).cachedBytes
      ensures !Reaches(RowOf(old(a), n), fileOk) && !RowOf(old(a), n).s.doomed ==> a.items[i].s == RowOf(old(a), n).s
    {
      i := PinItem(n);
      ok := EnsureLoaded(i, file, st, meta, fileOk, resizeOk);
      if !ok { ReleaseItem(i); }
    }

    /** Unpins; the last handle out of a doomed item lets it go. */
    method ReleaseItem(i: Id)
      requires i in a.items
      modifies this
      ensures a == old(a).(items := old(a).items[i := ReleasedRow(old(a).items[i])])
    {
      var row := a.items[i].(opens := a.items[i].opens - 1);
      if row.opens == 0 && row.s.doomed {
        // A doomed item leaves nothing in the index: shutting it down only closes its file.
        row := ClosedRow(row);
      }
      a := Replaced(a, i, row, 0);
    }

    /** Unregisters an item nobody has open and closes it: its bytes move to the index. */
    method CloseOne(n: Name)
      requires n in a.registry
      modifies this
      ensures var index := IndexAfter(old(a).index, old(a).items[old(a).registry[n]]);
        a == old(a).(items := a.items, registry := old(a).registry - {n}, index := index)
    {
      Shutdown(a.registry[n]);
      a := Unregistered(a, n);
    }

    /** Closes every idle item nobody has open; the counter does not move. */
    method CloseIdle(idle: set<Name>)
      modifies this
      ensures a.cachedBytes == old(a).cachedBytes && a.loads == old(a).loads
      ensures a.registry == old(a).registry - Due(old(a), idle)
    {
      var todo := Due(a, idle);
      ghost var due := todo;
      while todo != {}
        invariant todo <= due && a.registry == old(a).registry - (due - todo)
        invariant a.cachedBytes == old(a).cachedBytes && a.loads == old(a).loads
      {
        var n :| n in todo;
        TakeOne(old(a).registry, due, todo, n);
        CloseOne(n);
        todo := todo - {n};
      }
      assert due - todo == due;
    }

    /** Deletes a closed item's files and its account; a name that came back to life is left alone. */
    method DeleteEntry(n: Name)
      modifies this
      ensures n in old(a).registry || n !in old(a).index ==> a == old(a)
      ensures n !in old(a).registry && n in old(a).index ==>
        a == old(a).(index := old(a).index - {n}, cachedBytes := old(a).cachedBytes - old(a).index[n].bytes)
    {
      if n in a.registry || n !in a.index { return; }
      a := Unindexed(a, n, if n.cacheable then a.index[n].bytes else 0);
    }

    /**
     Deletes closed items oldest first until the counter fits.  `cands` are the indexed
     names in the order of their access times.
     */
    method EvictOverBudget(limit: int, cands: seq<Name>)
      requires forall n :: n in cands <==> n in a.index
      requires forall x, y | 0 <= x < y < |cands| :: a.index[cands[x]].atime <= a.index[cands[y]].atime
      modifies this
      ensures exists gone ::
        EvictedFrom(old(a), gone) && a == old(a).(index := old(a).index - gone, cachedBytes := a.cachedBytes)
      ensures a.cachedBytes <= limit || forall n | n in a.index :: n in a.registry
      ensures old(a).cachedBytes <= limit ==> a == old(a)
    {
      if a.cachedBytes <= limit {
        assert EvictedFrom(a, {}) && a.index - {} == a.index;
        return;
      }
      var k;
      ghost var gone;
      k, gone := EvictFirst(limit, cands);
      EvictedOldest(old(a), cands, k, gone);
    }

    method EvictFirst(limit: int, cands: seq<Name>) returns (k: nat, ghost gone: set<Name>)
      requires forall n :: n in cands <==> n in a.index
      modifies this
      ensures k <= |cands| && Evicted(old(a).registry, cands, k, gone) && (a.cachedBytes <= limit || k == |cands|)
      ensures a == old(a).(index := old(a).index - gone, cachedBytes := a.cachedBytes)
    {
      k, gone := 0, {};
      assert a.index - gone == a.index;
      while k < |cands| && a.cachedBytes > limit
        invariant k <= |cands| && Evicted(old(a).registry, cands, k, gone)
        invariant a == old(a).(index := old(a).index - gone, cachedBytes := a.cachedBytes)
      {
        EvictedNext(old(a).registry, cands, k, gone);
        MinusMore(old(a).index, gone, cands[k]);
        DeleteEntry(cands[k]);
        gone := if cands[k] in old(a).registry then gone else gone + {cands[k]};
        k := k + 1;
      }
    }

    /** Dooms every item at or under a name, and drops what the index holds there. */
    method InvalidateTree(name: Name)
      modifies this
      ensures a.loads == old(a).loads
      ensures forall n :: n in a.registry <==> n in old(a).registry && !Under(n, name)
      ensures forall n :: n in a.index <==> n in old(a).index && !Under(n, name)
      ensures forall i | i in a.items && a.items[i].s.Live() :: !Under(a.items[i].name, name)
    {
      InvalidateLive(name);
      InvalidateIndexed(name);
    }

    method InvalidateIndexed(name: Name)
      modifies this
      ensures a == old(a).(index := old(a).index - AtOrUnder(old(a).index.Keys, name), cachedBytes := a.cachedBytes)
    {
      var todo := AtOrUnder(a.index.Keys, name);
      ghost var gone: set<Name> := {};
      while todo != {}
        invariant todo + gone == AtOrUnder(old(a).index.Keys, name) && todo !! gone
        invariant a == old(a).(index := old(a).index - gone, cachedBytes := a.cachedBytes)
      {
        var n :| n in todo;
        MinusMore(old(a).index, gone, n);
        a := Unindexed(a, n, a.index[n].bytes);
        todo := todo - {n};
        gone := gone + {n};
      }
    }

    method InvalidateLive(name: Name)
      modifies this
      ensures a.index == old(a).index && a.loads == old(a).loads
      ensures a.registry == old(a).registry - AtOrUnder(old(a).registry.Keys, name)
    {
      var todo := AtOrUnder(a.registry.Keys, name);
      ghost var due := todo;
      while todo != {}
        invariant todo <= due && a.registry == old(a).registry - (due - todo)
        invariant a.index == old(a).index && a.loads == old(a).loads
      {
        var n :| n in todo;
        TakeOne(old(a).registry, due, todo, n);
        InvalidateOne(n);
        todo := todo - {n};
      }
      assert due - todo == due;
    }

    method InvalidateOne(n: Name)
      requires n in a.registry
      modifies this
      ensures a.index == old(a).index && a.loads == old(a).loads && a.registry == old(a).registry - {n}
    {
      var i := a.registry[n];
      DoomLocked(i);
      if a.items[i].opens == 0 { Shutdown(i); }
      a := Unregistered(a, n);
    }
  }

  function AtOrUnder(names: set<Name>, name: Name): set<Name> { set n | n in names && Under(n, name) }

  function ReleasedRow(row: Row): Row {
    var r := row.(opens := row.opens - 1);
    if r.opens == 0 && r.s.doomed then ClosedRow(r) else r
  }

  lemma MinusMore<V>(m: map<Name, V>, gone: set<Name>, n: Name)
    ensures m - (gone + {n}) == (m - gone) - {n}
    ensures n in m && n !in gone ==> n in m - gone && (m - gone)[n] == m[n]
    ensures n !in m || n in gone ==> m - (gone + {n}) == m - gone
  {}

  /** With the names of `todo` still to go, taking `n` next. */
  lemma TakeOne<V>(m: map<Name, V>, all: set<Name>, todo: set<Name>, n: Name)
    requires todo <= all <= m.Keys && n in todo
    ensures n in m - (all - todo) && (m - (all - todo))[n] == m[n]
    ensures m - (all - (todo - {n})) == (m - (all - todo)) - {n}
  {
    MinusMore(m, all - todo, n);
    assert all - (todo - {n}) == (all - todo) + {n};
  }

  /** The idle names nobody has open. */
  function Due(a: Sound, idle: set<Name>): set<Name> {
    set n | n in a.registry && n in idle && a.items[a.registry[n]].opens == 0
  }

  /** `gone` are unregistered, and no older closed file was kept. */
  ghost predicate EvictedFrom(a: Account, gone: set<Name>) {
    && (forall n | n in gone :: n in a.index && n !in a.registry)
    && (forall n, kept | n in gone && n in a.index && kept in a.index && kept !in gone && kept !in a.registry ::
         a.index[n].atime <= a.index[kept].atime)
  }

  /** The unregistered names among the first `k` candidates. */
  ghost predicate Evicted(registry: Registry, cands: seq<Name>, k: nat, gone: set<Name>)
    requires k <= |cands|
  {
    && (forall n | n in gone :: n !in registry && exists a :: 0 <= a < k && cands[a] == n)
    && (forall a | 0 <= a < k :: cands[a] in registry || cands[a] in gone)
  }

  lemma EvictedNext(registry: Registry, cands: seq<Name>, k: nat, gone: set<Name>)
    requires k < |cands| && Evicted(registry, cands, k, gone)
    ensures Evicted(registry, cands, k + 1, if cands[k] in registry then gone else gone + {cands[k]})
  {
    forall n | n in gone + {cands[k]} ensures exists a :: 0 <= a < k + 1 && cands[a] == n {
      if n in gone {
        var a :| 0 <= a < k && cands[a] == n;
        assert 0 <= a < k + 1;
      }
    }
  }

  /** Deleting a prefix of the candidates deletes the oldest ones. */
  lemma EvictedOldest(a: Account, cands: seq<Name>, k: nat, gone: set<Name>)
    requires k <= |cands| && (forall n :: n in cands <==> n in a.index) && Evicted(a.registry, cands, k, gone)
    requires forall x, y | 0 <= x < y < |cands| :: a.index[cands[x]].atime <= a.index[cands[y]].atime
    ensures EvictedFrom(a, gone)
    ensures k == |cands| ==> forall n | n in a.index && n !in gone :: n in a.registry
  {
    forall n, kept | n in gone && kept in a.index && kept !in gone && kept !in a.registry
      ensures n in a.index && a.index[n].atime <= a.index[kept].atime
    {
      var x :| 0 <= x < k && cands[x] == n;
      assert kept in cands;
      var y :| 0 <= y < |cands| && cands[y] == kept;
    }
    if k == |cands| {
      forall n | n in a.index && n !in gone ensures n in a.registry { assert n in cands; }
    }
  }

  // ------------------------------------------------- a load that is retried

  /**
   In every state of the cache, each load in its history claims what its own metadata
   justifies exactly when that takes in what the load before it left and it keeps.
   */
  lemma EveryLoadIff(a: Sound, j: nat)
    requires j < |a.loads|
    ensures var l := a.loads[j];
            && NoneDone(a.loads[..j], l.i)
            && (l.claims == Justified(l.st, l.meta) <==>
                LeftOver(LastClaims(a.loads[..j], l.i), l.st, l.meta) <= Justified(l.st, l.meta))
  {
    LoadJustifiedIff(LastClaims(a.loads[..j], a.loads[j].i), a.loads[j].st, a.loads[j].meta);
  }

  /** And so it does when no load of the item had stopped before. */
  lemma EveryLoadJustified(a: Sound, j: nat)
    requires j < |a.loads|
    requires forall k | 0 <= k < j && a.loads[k].i == a.loads[j].i :: a.loads[k].done
    ensures a.loads[j].claims == Justified(a.loads[j].st, a.loads[j].meta)
  {
    EveryLoadIff(a, j);
    assert forall k | 0 <= k < j :: a.loads[..j][k].i != a.loads[j].i;
    NoLoad(a.loads[..j], a.loads[j].i);
  }

  lemma {:induction false} NoLoad(loads: seq<Load>, i: Id)
    requires forall k | 0 <= k < |loads| :: loads[k].i != i
    ensures LastClaims(loads, i) == {}
  {
    if loads != [] { NoLoad(loads[..|loads| - 1], i); }
  }

  const FILE := Name("/f", true)
  const ON_DISK := Metadata("a", [Rng(0, 1)])

  /** A first load that stops at its resize. */
  method StopOnce() returns (c: Cfs)
    ensures fresh(c) && Reaches(RowOf(c.a, FILE), true) && 0 in Bytes(RowOf(c.a, FILE).s.rs)
    ensures |c.a.loads| == 1 && !c.a.loads[0].done
  {
    c := new Cfs();
    assert RowOf(c.a, FILE) == Blank(FILE) && Bytes(Blank(FILE).s.rs) == {};
    var i, ok := c.OpenItem(FILE, [], Stat(1, "a"), ON_DISK, true, false);
    OneByteClaimed();
  }

  /**
   Otherwise it need not: a load stops at its resize, the object changes, and the next
   load brings the item to life with a claim that its metadata does not justify.
   */
  method RetryKeepsStaleClaims() returns (c: Cfs, i: Id)
    ensures fresh(c) && |c.a.loads| == 2 && !c.a.loads[0].done && c.a.loads[1].done
    ensures i in c.a.items && c.a.items[i].s.Live() && 0 in Bytes(c.a.items[i].s.rs)
    ensures 0 !in Justified(c.a.loads[1].st, c.a.loads[1].meta)
  {
    c := StopOnce();
    var ok;
    i, ok := c.OpenItem(FILE, [], Stat(1, "b"), ON_DISK, true, true);
  }

  lemma OneByteClaimed()
    ensures 0 in LoadedBytes({}, Stat(1, "a"), ON_DISK)
  {
    BytesOne(Rng(0, 1));
    assert Rng(0, 1).Holds(0) && !Rng(1, FAR - 1).Holds(0);
  }
}
