/**
 What it means for the indexes of the NFSv4 state store to agree with its tables,
 and how each table update keeps them in agreement (nfs4/state.go).
 */
module StoreAgreement {
  import opened Lists
  import opened LockRanges
  import opened NfsTables
  import opened NfsInvariants
  import opened StoreIndex
  import RenamePath

  /** Everything the store derives from its tables. */
  datatype Index = Index(
    owners: map<Other, Owner>,
    byPath: map<Path, seq<Other>>, locksByPath: map<Path, seq<Other>>, delegsByPath: map<Path, seq<Other>>,
    openCount: map<ClientId, nat>, delegCount: map<ClientId, nat>)

  function OpenPaths(opens: map<Other, Open>): map<Other, Path> { map x | x in opens :: opens[x].path }
  function LockPaths(locks: map<Other, Lock>): map<Other, Path> { map x | x in locks :: locks[x].path }
  function DelegPaths(delegs: map<Other, Deleg>): map<Other, Path> { map x | x in delegs :: delegs[x].path }
  function OpenClients(opens: map<Other, Open>): map<Other, ClientId> { map x | x in opens :: opens[x].owner.client }
  function DelegClients(delegs: map<Other, Deleg>): map<Other, ClientId> { map x | x in delegs :: delegs[x].client }

  function OwnerAt(owners: map<Other, Owner>, x: Other): Option<Owner> {
    if x in owners then Some(owners[x]) else None
  }

  function OwnerIn(opens: map<Other, Open>, locks: map<Other, Lock>, closed: map<Other, Owner>, x: Other)
    : Option<Owner>
  {
    if x in opens then Some(opens[x].owner)
    else if x in locks then Some(locks[x].owner)
    else if x in closed then Some(closed[x])
    else None
  }

  /** The owner map holds the live opens and locks, and the closed stateids kept for replay. */
  ghost predicate OwnersAgree(owners: map<Other, Owner>, opens: map<Other, Open>, locks: map<Other, Lock>,
                              closed: map<Other, Owner>)
  {
    forall x :: OwnerAt(owners, x) == OwnerIn(opens, locks, closed, x)
  }

  /** Every index and counter is exactly what the tables say. */
  ghost predicate Agree(s: State, ix: Index) {
    match ix
    case Index(owners, byPath, locksByPath, delegsByPath, openCount, delegCount) =>
      && IndexOk(byPath, OpenPaths(s.opens)) && CountsOk(openCount, OpenClients(s.opens))
      && IndexOk(locksByPath, LockPaths(s.locks))
      && IndexOk(delegsByPath, DelegPaths(s.delegs)) && CountsOk(delegCount, DelegClients(s.delegs))
      && OwnersAgree(owners, s.opens, s.locks, s.closed)
  }

  // ---------- what the store relies on ----------

  ghost predicate LocksHaveOpens(opens: map<Other, Open>, locks: map<Other, Lock>) {
    forall l | l in locks ::
      && locks[l].open in opens && locks[l].path == opens[locks[l].open].path
      && locks[l].client == locks[l].owner.client == opens[locks[l].open].owner.client
  }

  ghost predicate IdsBounded(s: State) {
    && (forall x :: x in s.opens ==> x <= s.next && x !in s.locks && s.opens[x].owner.kind == OpenOwner)
    && (forall x :: x in s.locks ==> x <= s.next && s.locks[x].owner.kind == LockOwner)
    && (forall x :: x in s.delegs ==> x <= s.next)
    && (forall x :: x in s.closed ==> x <= s.next && x !in s.opens && x !in s.locks && s.closed[x].kind == OpenOwner)
  }

  /** Ids are issued, tables are disjoint, locks have their open. */
  ghost predicate Facts(s: State) { IdsBounded(s) && LocksHaveOpens(s.opens, s.locks) }

  /** What the store relies on is among what every run keeps. */
  lemma TidyFacts(s: State)
    requires Tidy(s)
    ensures Facts(s) && AllCanonical(s)
  {}

  /** The open of `o` that a walk along the list meets first. */
  ghost predicate FirstOf(list: seq<Other>, opens: map<Other, Open>, o: Owner, x: Other) {
    OwnedBy(opens, x, o) && exists i | 0 <= i < |list| :: list[i] == x && NoneOwned(opens, list[..i], o)
  }

  ghost predicate NoneOwned(opens: map<Other, Open>, list: seq<Other>, o: Owner) {
    forall k | 0 <= k < |list| :: !OwnedBy(opens, list[k], o)
  }

  ghost predicate OwnedBy(opens: map<Other, Open>, x: Other, o: Owner) { x in opens && opens[x].owner == o }

  function PickOf(found: Option<Other>): Other { if found.Some? then found.value else 0 }

  // ---------- table updates and their indexes ----------

  lemma OwnersSet(owners: map<Other, Owner>, s: State, s': State, x: Other, o: Owner)
    requires OwnersAgree(owners, s.opens, s.locks, s.closed)
    requires OwnerIn(s'.opens, s'.locks, s'.closed, x) == Some(o)
    requires forall y :: y != x ==> OwnerIn(s'.opens, s'.locks, s'.closed, y) == OwnerIn(s.opens, s.locks, s.closed, y)
    ensures OwnersAgree(owners[x := o], s'.opens, s'.locks, s'.closed)
  {
    forall y ensures OwnerAt(owners[x := o], y) == OwnerIn(s'.opens, s'.locks, s'.closed, y) {
      assert OwnerAt(owners, y) == OwnerIn(s.opens, s.locks, s.closed, y);
    }
  }

  lemma OwnersUnset(owners: map<Other, Owner>, s: State, s': State, xs: set<Other>)
    requires OwnersAgree(owners, s.opens, s.locks, s.closed)
    requires forall y :: OwnerIn(s'.opens, s'.locks, s'.closed, y)
                      == if y in xs then None else OwnerIn(s.opens, s.locks, s.closed, y)
    ensures OwnersAgree(owners - xs, s'.opens, s'.locks, s'.closed)
  {
    forall y ensures OwnerAt(owners - xs, y) == OwnerIn(s'.opens, s'.locks, s'.closed, y) {
      assert OwnerAt(owners, y) == OwnerIn(s.opens, s.locks, s.closed, y);
    }
  }

  lemma OpensAdd(index: map<Path, seq<Other>>, opens: map<Other, Open>, x: Other, o: Open)
    requires IndexOk(index, OpenPaths(opens)) && x !in opens
    ensures IndexOk(Append(index, o.path, x), OpenPaths(opens[x := o]))
  {
    AppendOk(index, OpenPaths(opens), o.path, x);
    assert OpenPaths(opens[x := o]) == OpenPaths(opens)[x := o.path];
  }

  lemma OpensCount(counts: map<ClientId, nat>, opens: map<Other, Open>, x: Other, o: Open)
    requires CountsOk(counts, OpenClients(opens)) && x !in opens
    ensures CountsOk(counts[o.owner.client := CountOf(counts, o.owner.client) + 1], OpenClients(opens[x := o]))
  {
    CountAdd(counts, OpenClients(opens), x, o.owner.client);
    assert OpenClients(opens[x := o]) == OpenClients(opens)[x := o.owner.client];
  }

  lemma OwnersSame(owners: map<Other, Owner>, s: State, s': State)
    requires OwnersAgree(owners, s.opens, s.locks, s.closed)
    requires forall y :: OwnerIn(s'.opens, s'.locks, s'.closed, y) == OwnerIn(s.opens, s.locks, s.closed, y)
    ensures OwnersAgree(owners, s'.opens, s'.locks, s'.closed)
  {
    forall y ensures OwnerAt(owners, y) == OwnerIn(s'.opens, s'.locks, s'.closed, y) {
      assert OwnerAt(owners, y) == OwnerIn(s.opens, s.locks, s.closed, y);
    }
  }

  lemma OpensSet(opens: map<Other, Open>, x: Other, o: Open)
    requires x in opens && o.path == opens[x].path && o.owner == opens[x].owner
    ensures OpenPaths(opens[x := o]) == OpenPaths(opens) && OpenClients(opens[x := o]) == OpenClients(opens)
  {}

  lemma LocksAdd(index: map<Path, seq<Other>>, locks: map<Other, Lock>, x: Other, l: Lock)
    requires IndexOk(index, LockPaths(locks)) && x !in locks
    ensures IndexOk(Append(index, l.path, x), LockPaths(locks[x := l]))
  {
    AppendOk(index, LockPaths(locks), l.path, x);
    assert LockPaths(locks[x := l]) == LockPaths(locks)[x := l.path];
  }

  lemma LocksDrop(index: map<Path, seq<Other>>, locks: map<Other, Lock>, x: Other)
    requires IndexOk(index, LockPaths(locks)) && x in locks
    ensures IndexOk(Unlisted(index, locks[x].path, x), LockPaths(locks - {x}))
  {
    UnlistedOk(index, LockPaths(locks), x);
    assert LockPaths(locks - {x}) == LockPaths(locks) - {x};
  }

  lemma DelegsAdd(index: map<Path, seq<Other>>, delegs: map<Other, Deleg>, x: Other, d: Deleg)
    requires IndexOk(index, DelegPaths(delegs)) && x !in delegs
    ensures IndexOk(Append(index, d.path, x), DelegPaths(delegs[x := d]))
  {
    AppendOk(index, DelegPaths(delegs), d.path, x);
    assert DelegPaths(delegs[x := d]) == DelegPaths(delegs)[x := d.path];
  }

  lemma DelegsCount(counts: map<ClientId, nat>, delegs: map<Other, Deleg>, x: Other, d: Deleg)
    requires CountsOk(counts, DelegClients(delegs)) && x !in delegs
    ensures CountsOk(counts[d.client := CountOf(counts, d.client) + 1], DelegClients(delegs[x := d]))
  {
    CountAdd(counts, DelegClients(delegs), x, d.client);
    assert DelegClients(delegs[x := d]) == DelegClients(delegs)[x := d.client];
  }

  lemma DelegsSet(delegs: map<Other, Deleg>, x: Other, d: Deleg)
    requires x in delegs && d.path == delegs[x].path && d.client == delegs[x].client
    ensures DelegPaths(delegs[x := d]) == DelegPaths(delegs) && DelegClients(delegs[x := d]) == DelegClients(delegs)
  {}

  function IndexedOpen(ix: Index, x: Other, o: Open): Index {
    ix.(owners := ix.owners[x := o.owner], byPath := Append(ix.byPath, o.path, x),
        openCount := ix.openCount[o.owner.client := CountOf(ix.openCount, o.owner.client) + 1])
  }

  lemma AddOpenAgrees(s: State, ix: Index, o: Owner, q: Pending)
    requires Agree(s, ix) && s.next + 1 !in s.opens && s.next + 1 !in s.locks
    ensures Agree(WithOpen(s, o, q), IndexedOpen(ix, s.next + 1, Open(1, o, q.path, q.unionAccess, q.unionDeny)))
  {
    var x, held := s.next + 1, Open(1, o, q.path, q.unionAccess, q.unionDeny);
    OpensGrow(s, ix, WithOpen(s, o, q), IndexedOpen(ix, x, held), x, held);
  }

  lemma OpensGrow(s: State, ix: Index, s': State, ix': Index, x: Other, held: Open)
    requires Agree(s, ix) && x !in s.opens && x !in s.locks
    requires s'.opens == s.opens[x := held] && s'.locks == s.locks && s'.delegs == s.delegs && s'.closed == s.closed
    requires ix' == IndexedOpen(ix, x, held)
    ensures Agree(s', ix')
  {
    OpensAdd(ix.byPath, s.opens, x, held);
    OpensCount(ix.openCount, s.opens, x, held);
    OwnersSet(ix.owners, s, s', x, held.owner);
  }

  lemma SetOpenAgrees(s: State, ix: Index, x: Other, access: Bits, deny: Bits)
    requires Agree(s, ix) && x in s.opens
    ensures Agree(WithShares(s, x, access, deny), ix)
  {
    var s' := WithShares(s, x, access, deny);
    OpensSet(s.opens, x, s'.opens[x]);
    OwnersSame(ix.owners, s, s');
  }

  function IndexedLock(ix: Index, x: Other, l: Lock): Index {
    ix.(owners := ix.owners[x := l.owner], locksByPath := Append(ix.locksByPath, l.path, x))
  }

  lemma AddLockAgrees(s: State, ix: Index, lo: Owner, x: Other, p: Path, r: LockRange)
    requires Agree(s, ix) && s.next + 1 !in s.opens && s.next + 1 !in s.locks
    ensures Agree(WithLock(s, lo, x, p, r), IndexedLock(ix, s.next + 1, Lock(1, lo.client, lo, x, p, [r])))
  {
    var l, held := s.next + 1, Lock(1, lo.client, lo, x, p, [r]);
    LocksAdd(ix.locksByPath, s.locks, l, held);
    OwnersSet(ix.owners, s, WithLock(s, lo, x, p, r), l, lo);
  }

  lemma SetRangesAgrees(s: State, ix: Index, l: Other, ranges: seq<LockRange>)
    requires Agree(s, ix) && l in s.locks
    ensures Agree(WithRanges(s, l, ranges), ix)
  {
    var s' := WithRanges(s, l, ranges);
    assert LockPaths(s'.locks) == LockPaths(s.locks);
    OwnersSame(ix.owners, s, s');
  }

  lemma DropLockAgrees(s: State, ix: Index, l: Other)
    requires Agree(s, ix) && l in s.locks && l !in s.opens && l !in s.closed
    ensures Agree(s.(locks := s.locks - {l}),
                  ix.(owners := ix.owners - {l}, locksByPath := Unlisted(ix.locksByPath, s.locks[l].path, l)))
  {
    LocksDrop(ix.locksByPath, s.locks, l);
    OwnersUnset(ix.owners, s, s.(locks := s.locks - {l}), {l});
  }

  function IndexedDeleg(ix: Index, x: Other, d: Deleg): Index {
    ix.(delegsByPath := Append(ix.delegsByPath, d.path, x),
        delegCount := ix.delegCount[d.client := CountOf(ix.delegCount, d.client) + 1])
  }

  lemma AddDelegAgrees(s: State, ix: Index, c: ClientId, p: Path)
    requires Agree(s, ix) && s.next + 1 !in s.delegs
    ensures Agree(WithDeleg(s, c, p), IndexedDeleg(ix, s.next + 1, Deleg(1, c, p, false, 0)))
  {
    var d, held := s.next + 1, Deleg(1, c, p, false, 0);
    DelegsGrow(s, ix, WithDeleg(s, c, p), IndexedDeleg(ix, d, held), d, held);
  }

  lemma DelegsGrow(s: State, ix: Index, s': State, ix': Index, d: Other, held: Deleg)
    requires Agree(s, ix) && d !in s.delegs
    requires s'.delegs == s.delegs[d := held] && s'.opens == s.opens && s'.locks == s.locks && s'.closed == s.closed
    requires ix' == IndexedDeleg(ix, d, held)
    ensures Agree(s', ix')
  {
    DelegsAdd(ix.delegsByPath, s.delegs, d, held);
    DelegsCount(ix.delegCount, s.delegs, d, held);
  }

  function UnindexedDeleg(ix: Index, x: Other, d: Deleg): Index
    requires CountOf(ix.delegCount, d.client) > 0
  {
    ix.(delegsByPath := Unlisted(ix.delegsByPath, d.path, x),
        delegCount := ix.delegCount[d.client := CountOf(ix.delegCount, d.client) - 1])
  }

  lemma DropDelegAgrees(s: State, ix: Index, d: Other)
    requires Agree(s, ix) && d in s.delegs
    ensures CountOf(ix.delegCount, s.delegs[d].client) > 0
    ensures Agree(s.(delegs := s.delegs - {d}), UnindexedDeleg(ix, d, s.delegs[d]))
  {
    UnlistedOk(ix.delegsByPath, DelegPaths(s.delegs), d);
    CountDrop(ix.delegCount, DelegClients(s.delegs), d);
    assert DelegPaths(s.delegs - {d}) == DelegPaths(s.delegs) - {d};
    assert DelegClients(s.delegs - {d}) == DelegClients(s.delegs) - {d};
  }

  lemma SetDelegAgrees(s: State, ix: Index, d: Other, held: Deleg)
    requires Agree(s, ix) && d in s.delegs && held.path == s.delegs[d].path && held.client == s.delegs[d].client
    ensures Agree(s.(delegs := s.delegs[d := held]), ix)
  {
    DelegsSet(s.delegs, d, held);
  }

  // ---------- reading counters and ids ----------

  lemma OpenCounter(s: State, ix: Index, c: ClientId)
    requires CountsOk(ix.openCount, OpenClients(s.opens))
    ensures CountOf(ix.openCount, c) == |OpensOf(s, c)|
  {
    assert Having(OpenClients(s.opens), c) == OpensOf(s, c);
  }

  lemma DelegCounter(s: State, ix: Index, c: ClientId)
    requires CountsOk(ix.delegCount, DelegClients(s.delegs))
    ensures CountOf(ix.delegCount, c) == |DelegsOf(s, c)|
  {
    assert Having(DelegClients(s.delegs), c) == DelegsOf(s, c);
  }

  /** Neither the next stateid nor the one after an open is placed is in use. */
  lemma NextIsFresh(s: State, o: Owner, q: Pending, pick: Other)
    requires IdsBounded(s)
    ensures s.next + 1 !in s.opens && s.next + 1 !in s.locks && s.next + 1 !in s.delegs && s.next + 1 !in s.closed
    ensures var s' := PlaceOpen(s, o, q, pick); s'.next + 1 !in s'.delegs
  {}

  // ---------- closing an open ----------

  /** Removing an open's row from its list and its client's count. */
  function UnindexedOpen(ix: Index, x: Other, o: Open): Index
    requires CountOf(ix.openCount, o.owner.client) > 0
  {
    ix.(byPath := Unlisted(ix.byPath, o.path, x),
        openCount := ix.openCount[o.owner.client := CountOf(ix.openCount, o.owner.client) - 1])
  }

  lemma OpensDrop(index: map<Path, seq<Other>>, opens: map<Other, Open>, x: Other)
    requires IndexOk(index, OpenPaths(opens)) && x in opens
    ensures IndexOk(Unlisted(index, opens[x].path, x), OpenPaths(opens - {x}))
  {
    UnlistedOk(index, OpenPaths(opens), x);
    assert OpenPaths(opens - {x}) == OpenPaths(opens) - {x};
  }

  lemma OpensUncount(counts: map<ClientId, nat>, opens: map<Other, Open>, x: Other)
    requires CountsOk(counts, OpenClients(opens)) && x in opens
    ensures CountOf(counts, opens[x].owner.client) > 0
    ensures var c := opens[x].owner.client;
            CountsOk(counts[c := CountOf(counts, c) - 1], OpenClients(opens - {x}))
  {
    CountDrop(counts, OpenClients(opens), x);
    assert OpenClients(opens - {x}) == OpenClients(opens) - {x};
  }

  /** The stateids of `o` that CLOSE of `x` forgets: all but `x` that are not open. */
  function Priors(owners: map<Other, Owner>, opens: map<Other, Open>, x: Other, o: Owner): set<Other> {
    set y | y in owners && y != x && owners[y] == o && y !in opens
  }

  lemma CloseOwners(s: State, owners: map<Other, Owner>, x: Other)
    requires OwnersAgree(owners, s.opens, s.locks, s.closed) && IdsBounded(s) && x in s.opens
    requires forall l :: l in s.locks ==> s.locks[l].open != x
    ensures var s' := WithoutOpen(s, x);
            OwnersAgree(owners - Priors(owners, s'.opens, x, s.opens[x].owner), s'.opens, s'.locks, s'.closed)
  {
    var s' := WithoutOpen(s, x);
    var o := s.opens[x].owner;
    assert s'.locks == s.locks;
    forall y ensures OwnerAt(owners - Priors(owners, s'.opens, x, o), y) == OwnerIn(s'.opens, s'.locks, s'.closed, y) {
      assert OwnerAt(owners, y) == OwnerIn(s.opens, s.locks, s.closed, y);
    }
  }

  lemma CloseAgrees(s: State, ix: Index, x: Other)
    requires Agree(s, ix) && IdsBounded(s) && x in s.opens && forall l :: l in s.locks ==> s.locks[l].open != x
    ensures CountOf(ix.openCount, s.opens[x].owner.client) > 0
    ensures Agree(WithoutOpen(s, x),
                  UnindexedOpen(ix, x, s.opens[x]).(
                    owners := ix.owners - Priors(ix.owners, s.opens - {x}, x, s.opens[x].owner)))
  {
    OpensDrop(ix.byPath, s.opens, x);
    OpensUncount(ix.openCount, s.opens, x);
    CloseOwners(s, ix.owners, x);
    assert WithoutOpen(s, x).locks == s.locks;
  }

  /** Once its empty lock states are dropped, closing an open drops nothing more. */
  lemma EmptyLocksGone(s: State, s': State, x: Other)
    requires x in s.opens && !LocksBlockClose(s, x) && IdsBounded(s)
    requires s' == s.(locks := s.locks - (set l | l in s.locks && s.locks[l].open == x && s.locks[l].ranges == []))
    ensures forall l :: l in s'.locks ==> s'.locks[l].open != x
    ensures IdsBounded(s') && WithoutOpen(s', x) == WithoutOpen(s, x)
  {
    assert forall l :: l in s'.locks ==> l in s.locks && s.locks[l].open != x;
    assert WithoutOpen(s', x).locks == WithoutOpen(s, x).locks;
  }

  // ---------- recall ----------

  /** A recall in progress: `gone` revoked so far and `jobs` marked so far. */
  ghost function Recalled(s: State, gone: set<Other>, jobs: set<Other>, now: nat): State {
    MarkRecalling(Revoke(s, gone, now), jobs, now)
  }

  lemma RecalledNothing(s: State, now: nat)
    ensures Recalled(s, {}, {}, now) == s
  {}

  lemma RecalledRevoke(s: State, gone: set<Other>, jobs: set<Other>, now: nat, d: Other)
    requires d !in jobs
    ensures var s' := Recalled(s, gone, jobs, now);
            Recalled(s, gone + {d}, jobs, now) == s'.(delegs := s'.delegs - {d}, revoked := s'.revoked[d := now])
  {
    var s' := Recalled(s, gone, jobs, now);
    var s'' := Recalled(s, gone + {d}, jobs, now);
    assert s''.delegs == s'.delegs - {d};
    assert s''.revoked == s'.revoked[d := now];
  }

  lemma RecalledMark(s: State, gone: set<Other>, jobs: set<Other>, now: nat, d: Other)
    requires d in s.delegs && d !in gone
    ensures var s' := Recalled(s, gone, jobs, now);
            && d in s'.delegs
            && Recalled(s, gone, jobs + {d}, now)
               == s'.(delegs := s'.delegs[d := s'.delegs[d].(recalling := true, recallAt := now)])
  {
    var s' := Recalled(s, gone, jobs, now);
    assert Recalled(s, gone, jobs + {d}, now).delegs
        == s'.delegs[d := s'.delegs[d].(recalling := true, recallAt := now)];
  }

  /** Forfeited, newly recalled, and waited-for delegations among the listed ones. */
  function ForfeitIn(t: Tables, ds: seq<Other>, except: Option<ClientId>): set<Other> {
    set d | d in ds && d in t.s.delegs
            && Some(t.s.delegs[d].client) != except && Forfeit(t.now, t.recallWait, t.s.delegs[d])
  }

  function JobsIn(t: Tables, ds: seq<Other>, except: Option<ClientId>): set<Other> {
    set d | d in ds && d in t.s.delegs && Some(t.s.delegs[d].client) != except && !t.s.delegs[d].recalling
  }

  predicate BlockedIn(t: Tables, ds: seq<Other>, except: Option<ClientId>) {
    exists d :: d in ds && d in t.s.delegs && Some(t.s.delegs[d].client) != except
                && !Forfeit(t.now, t.recallWait, t.s.delegs[d])
  }

  function RecallOneState(t: Tables, d: Other, except: Option<ClientId>): State
    requires d in t.s.delegs
  {
    var held := t.s.delegs[d];
    if Some(held.client) == except then t.s
    else if Forfeit(t.now, t.recallWait, held) then t.s.(delegs := t.s.delegs - {d}, revoked := t.s.revoked[d := t.now])
    else if held.recalling then t.s
    else t.s.(delegs := t.s.delegs[d := held.(recalling := true, recallAt := t.now)])
  }

  ghost function RecallSoFar(t: Tables, ds: seq<Other>, except: Option<ClientId>): Tables {
    t.(s := Recalled(t.s, ForfeitIn(t, ds, except), JobsIn(t, ds, except), t.now))
  }

  lemma RecallStart(t: Tables, ds: seq<Other>, except: Option<ClientId>)
    ensures RecallSoFar(t, ds[..0], except) == t && JobsIn(t, ds[..0], except) == {} && !BlockedIn(t, ds[..0], except)
  {
    RecalledNothing(t.s, t.now);
    assert ForfeitIn(t, ds[..0], except) == {};
  }

  predicate Blocks(t: Tables, held: Deleg, except: Option<ClientId>) {
    Some(held.client) != except && !Forfeit(t.now, t.recallWait, held)
  }

  lemma RecallSets(t: Tables, ds: seq<Other>, i: nat, except: Option<ClientId>)
    requires i < |ds| && NoDup(ds) && ds[i] in t.s.delegs
    ensures var d, held := ds[i], t.s.delegs[ds[i]];
            var theirs := Some(held.client) != except;
            && d !in JobsIn(t, ds[..i], except) && d !in ForfeitIn(t, ds[..i], except)
            && ForfeitIn(t, ds[..i+1], except)
               == ForfeitIn(t, ds[..i], except) + (if theirs && Forfeit(t.now, t.recallWait, held) then {d} else {})
            && JobsIn(t, ds[..i+1], except)
               == JobsIn(t, ds[..i], except) + (if theirs && !held.recalling then {d} else {})
  {
    assert ds[..i+1] == ds[..i] + [ds[i]];
    assert ds[i] !in ds[..i];
  }

  lemma RecallBlocks(t: Tables, ds: seq<Other>, i: nat, except: Option<ClientId>)
    requires i < |ds| && ds[i] in t.s.delegs
    ensures BlockedIn(t, ds[..i+1], except) <==> (BlockedIn(t, ds[..i], except) || Blocks(t, t.s.delegs[ds[i]], except))
  {
    assert ds[..i+1] == ds[..i] + [ds[i]];
    if Blocks(t, t.s.delegs[ds[i]], except) { assert ds[i] in ds[..i+1]; }
  }

  /** One round of the recall walk. */
  lemma RecallStep(t: Tables, ds: seq<Other>, i: nat, except: Option<ClientId>)
    requires i < |ds| && NoDup(ds) && ds[i] in t.s.delegs
    ensures var d, t1 := ds[i], RecallSoFar(t, ds[..i], except);
            && d in t1.s.delegs && t1.s.delegs[d] == t.s.delegs[d]
            && RecallSoFar(t, ds[..i+1], except) == t1.(s := RecallOneState(t1, d, except))
  {
    var gone, jobs := ForfeitIn(t, ds[..i], except), JobsIn(t, ds[..i], except);
    RecallSets(t, ds, i, except);
    RecalledRevoke(t.s, gone, jobs, t.now, ds[i]);
    RecalledMark(t.s, gone, jobs, t.now, ds[i]);
    assert gone + {} == gone && jobs + {} == jobs;
  }

  lemma RecallDone(t: Tables, ds: seq<Other>, p: Path, except: Option<ClientId>)
    requires forall d :: d in ds <==> d in t.s.delegs && t.s.delegs[d].path == p
    ensures ForfeitIn(t, ds, except) == ForfeitOf(t.s, Disturbed(t.s, p, except), t.now, t.recallWait)
    ensures JobsIn(t, ds, except) == RecallJobs(t.s, p, except)
    ensures BlockedIn(t, ds, except) <==> Blockers(t, p, except) != {}
  {
    if d :| d in ds && d in t.s.delegs && Some(t.s.delegs[d].client) != except
            && !Forfeit(t.now, t.recallWait, t.s.delegs[d]) {
      assert d in Blockers(t, p, except);
    }
    if d :| d in Blockers(t, p, except) { assert d in ds; }
  }

  lemma TombsAgree(s: State, ix: Index, revoked: map<Other, nat>, expired: map<Other, nat>)
    requires Agree(s, ix)
    ensures Agree(s.(revoked := revoked, expired := expired), ix)
  {}

  // ---------- releasing clients ----------

  lemma UncountAll(counts: map<ClientId, nat>, opens: map<Other, Open>, c: ClientId)
    requires CountsOk(counts, OpenClients(opens))
    ensures CountsOk(counts[c := 0], OpenClients(OpensNotOf(opens, {c})))
  {
    var opens' := OpensNotOf(opens, {c});
    forall d ensures CountOf(counts[c := 0], d) == |Having(OpenClients(opens'), d)| {
      if d == c {
        assert Having(OpenClients(opens'), d) == {};
      } else {
        assert Having(OpenClients(opens'), d) == Having(OpenClients(opens), d);
        assert CountOf(counts, d) == |Having(OpenClients(opens), d)|;
      }
    }
  }

  lemma ReleaseOwners(owners: map<Other, Owner>, s: State, c: ClientId)
    requires OwnersAgree(owners, s.opens, s.locks, s.closed)
    requires forall l :: l in s.locks ==> s.locks[l].client == s.locks[l].owner.client
    requires forall x :: x in s.opens ==> x !in s.locks
    requires forall x :: x in s.closed ==> x !in s.opens && x !in s.locks
    ensures var s' := WithoutStateOf(s, {c}); OwnersAgree(OwnersNotOf(owners, {c}), s'.opens, s'.locks, s'.closed)
  {
    var s' := WithoutStateOf(s, {c});
    forall x ensures OwnerAt(OwnersNotOf(owners, {c}), x) == OwnerIn(s'.opens, s'.locks, s'.closed, x) {
      assert OwnerAt(owners, x) == OwnerIn(s.opens, s.locks, s.closed, x);
    }
  }

  lemma ReleasedByOwner(cl: Clients, c: ClientId)
    requires ClientsOk(cl) && c in cl.confirmed
    ensures WithoutClients(cl, {c}).byOwner == cl.byOwner - {cl.all[c].ownerId}
  {}

  // ---------- expiring clients one after another is expiring them together ----------

  lemma StampMore(a: map<nat, nat>, xs: set<nat>, ys: set<nat>, now: nat)
    ensures a + Stamped(xs, now) + Stamped(ys, now) == a + Stamped(xs + ys, now)
  {}

  lemma StampNone(a: map<nat, nat>, now: nat)
    ensures a + Stamped({}, now) == a
  {}

  lemma FilterMore(s: State, a: set<ClientId>, b: set<ClientId>)
    ensures OpensNotOf(OpensNotOf(s.opens, a), b) == OpensNotOf(s.opens, a + b)
    ensures LocksNotOf(LocksNotOf(s.locks, a), b) == LocksNotOf(s.locks, a + b)
  {}

  lemma FilterMoreToo(s: State, a: set<ClientId>, b: set<ClientId>)
    ensures DelegsNotOf(DelegsNotOf(s.delegs, a), b) == DelegsNotOf(s.delegs, a + b)
    ensures OwnersNotOf(OwnersNotOf(s.closed, a), b) == OwnersNotOf(s.closed, a + b)
  {}

  lemma HeldMore(s: State, a: set<ClientId>, b: set<ClientId>)
    requires LocksHaveOpens(s.opens, s.locks)
    ensures OpensHeldBy(s.opens, a) + OpensHeldBy(OpensNotOf(s.opens, a), b) == OpensHeldBy(s.opens, a + b)
    ensures LocksHeldBy(s.locks, a) + LocksHeldBy(LocksNotOf(s.locks, a), b) == LocksHeldBy(s.locks, a + b)
  {}

  lemma HeldMoreToo(s: State, a: set<ClientId>, b: set<ClientId>)
    ensures DelegsHeldBy(s.delegs, a) + DelegsHeldBy(DelegsNotOf(s.delegs, a), b) == DelegsHeldBy(s.delegs, a + b)
    ensures ClosedBy(s.closed, a) + ClosedBy(OwnersNotOf(s.closed, a), b) == ClosedBy(s.closed, a + b)
  {}

  lemma StateidsMore(s: State, a: set<ClientId>, b: set<ClientId>)
    requires LocksHaveOpens(s.opens, s.locks)
    ensures StateidsOf(s, a + b) == StateidsOf(s, a) + StateidsOf(WithoutStateOf(s, a), b)
  {
    HeldMore(s, a, b);
    HeldMoreToo(s, a, b);
  }

  lemma ExpireMore(t: Tables, a: set<ClientId>, b: set<ClientId>)
    requires LocksHaveOpens(t.s.opens, t.s.locks)
    ensures ExpireClients(ExpireClients(t, a), b) == ExpireClients(t, a + b)
  {
    FilterMore(t.s, a, b);
    FilterMoreToo(t.s, a, b);
    StateidsMore(t.s, a, b);
    StampMore(t.s.expired, StateidsOf(t.s, a), StateidsOf(WithoutStateOf(t.s, a), b), t.now);
    StampMore(t.cl.expiredIds, a, b, t.now);
    ClientsMore(t.cl, a, b);
  }

  lemma ClientsMore(cl: Clients, a: set<ClientId>, b: set<ClientId>)
    ensures WithoutClients(WithoutClients(cl, a), b) == WithoutClients(cl, a + b)
  {
    assert cl.confirmed - a - b == cl.confirmed - (a + b);
  }

  /** One client of the walk over confirmed clients. */
  lemma LapsedStep(t: Tables, todo: set<ClientId>, c: ClientId)
    requires LocksHaveOpens(t.s.opens, t.s.locks) && c in todo && todo <= t.cl.confirmed && c in t.cl.all
    ensures var done := ExpireClients(t, LapsedClients(t) - todo);
            ExpireClients(t, LapsedClients(t) - (todo - {c}))
            == if Elapsed(t.cl.all[c].lastRenew, t.lease, t.now) then ExpireClients(done, {c}) else done
  {
    var lapsed := LapsedClients(t);
    ExpireMore(t, lapsed - todo, {c});
    assert lapsed - (todo - {c}) == if c in lapsed then lapsed - todo + {c} else lapsed - todo;
  }

  lemma ExpireNone(t: Tables)
    ensures ExpireClients(t, {}) == t
  {
    StampNone(t.s.expired, t.now);
    StampNone(t.cl.expiredIds, t.now);
    assert StateidsOf(t.s, {}) == {};
    assert OpensNotOf(t.s.opens, {}) == t.s.opens && LocksNotOf(t.s.locks, {}) == t.s.locks;
    assert DelegsNotOf(t.s.delegs, {}) == t.s.delegs && OwnersNotOf(t.s.closed, {}) == t.s.closed;
  }

  lemma RevokeNone(s: State, now: nat)
    ensures Revoke(s, {}, now) == s
  {
    StampNone(s.revoked, now);
  }

  lemma RevokeMore(s: State, ds: set<Other>, d: Other, now: nat)
    ensures var s' := Revoke(s, ds, now);
            Revoke(s, ds + {d}, now) == s'.(delegs := s'.delegs - {d}, revoked := s'.revoked[d := now])
  {
    assert s.delegs - (ds + {d}) == s.delegs - ds - {d};
    assert s.revoked + Stamped(ds + {d}, now) == (s.revoked + Stamped(ds, now))[d := now];
  }

  function OwnedIds(owners: map<Other, Owner>, c: ClientId): set<Other> {
    set x | x in owners && owners[x].client == c
  }

  /** The owner map routes exactly a client's opens, locks and closed stateids. */
  lemma OwnedIdsExactly(s: State, owners: map<Other, Owner>, c: ClientId)
    requires OwnersAgree(owners, s.opens, s.locks, s.closed) && IdsBounded(s)
    ensures OwnedIds(owners, c) + DelegsHeldBy(s.delegs, {c}) == StateidsOf(s, {c})
  {
    var three := OpensHeldBy(s.opens, {c}) + LocksHeldBy(s.locks, {c}) + ClosedBy(s.closed, {c});
    forall x ensures x in OwnedIds(owners, c) <==> x in three {
      assert OwnerAt(owners, x) == OwnerIn(s.opens, s.locks, s.closed, x);
    }
    assert OwnedIds(owners, c) == three;
    assert three + DelegsHeldBy(s.delegs, {c}) == StateidsOf(s, {c});
  }

  lemma FactsWithout(s: State, dead: set<ClientId>)
    requires Facts(s)
    ensures Facts(WithoutStateOf(s, dead))
  {}

  lemma FactsKept(t: Tables, dead: set<ClientId>)
    requires Facts(t.s) && ClientsOk(t.cl)
    ensures Facts(ExpireClients(t, dead).s) && ClientsOk(ExpireClients(t, dead).cl)
    ensures ExpireClients(t, dead).cl.all == t.cl.all && ExpireClients(t, dead).cl.confirmed == t.cl.confirmed - dead
  {
    FactsWithout(t.s, dead);
    TombFacts(WithoutStateOf(t.s, dead), ExpireClients(t, dead).s.revoked, ExpireClients(t, dead).s.expired);
    assert ExpireClients(t, dead).s
        == WithoutStateOf(t.s, dead).(expired := t.s.expired + Stamped(StateidsOf(t.s, dead), t.now));
    WithoutClientsSafe(t.cl.(expiredIds := t.cl.expiredIds + Stamped(dead, t.now)), dead);
  }

  lemma TombFacts(s: State, revoked: map<Other, nat>, expired: map<Other, nat>)
    requires Facts(s)
    ensures Facts(s.(revoked := revoked, expired := expired))
  {}

  lemma SweepKeepsFacts(t: Tables)
    requires Facts(t.s) && ClientsOk(t.cl)
    ensures var s1 := SweptTombs(t.s, t.lease, t.now);
            Facts(Revoke(s1, ForfeitOf(s1, s1.delegs.Keys, t.now, t.recallWait), t.now))
    ensures ClientsOk(SweptClients(t.cl, t.lease, t.now))
  {}

  // ---------- rename ----------

  lemma MovedPathMaps(s: State, from: Path, to: Path)
    ensures OpenPaths(MovedOpens(s.opens, from, to)) == RenamePath.MovedPaths(OpenPaths(s.opens), from, to)
    ensures LockPaths(MovedLocks(s.locks, from, to)) == RenamePath.MovedPaths(LockPaths(s.locks), from, to)
    ensures DelegPaths(MovedDelegs(s.delegs, from, to)) == RenamePath.MovedPaths(DelegPaths(s.delegs), from, to)
  {}

  lemma MovedClientMaps(s: State, from: Path, to: Path)
    ensures OpenClients(MovedOpens(s.opens, from, to)) == OpenClients(s.opens)
    ensures DelegClients(MovedDelegs(s.delegs, from, to)) == DelegClients(s.delegs)
  {}

  /** Writing the walk's path fields back into the rows gives the moved rows. */
  lemma Repathed(s: State, from: Path, to: Path)
    ensures (map x | x in s.opens :: s.opens[x].(path := RenamePath.MovedPaths(OpenPaths(s.opens), from, to)[x]))
         == MovedOpens(s.opens, from, to)
    ensures (map x | x in s.locks :: s.locks[x].(path := RenamePath.MovedPaths(LockPaths(s.locks), from, to)[x]))
         == MovedLocks(s.locks, from, to)
    ensures (map x | x in s.delegs :: s.delegs[x].(path := RenamePath.MovedPaths(DelegPaths(s.delegs), from, to)[x]))
         == MovedDelegs(s.delegs, from, to)
  {}

  lemma RenamedOwners(s: State, owners: map<Other, Owner>, from: Path, to: Path)
    requires OwnersAgree(owners, s.opens, s.locks, s.closed)
    ensures var s' := Rename(s, from, to); OwnersAgree(owners, s'.opens, s'.locks, s'.closed)
  {
    OwnersSame(owners, s, Rename(s, from, to));
  }
}
