/**
 The NFSv4 state store as the server holds it (nfs4/state.go): the tables of
 `NfsTables` and, beside them, per-path lists, a stateid-to-owner map and
 per-client counters, all updated in place.

 Every operation is proved to compute what the plain tables specify while deciding
 through the indexes alone, and to leave every index exact.  `Facts` is what it
 needs to know about the tables, and every reachable state has it.  The `closed` table is
 specification only: no operation reads it.
 */
module StateStore {
  import opened Lists
  import opened LockRanges
  import opened NfsTables
  import opened NfsInvariants
  import opened StoreIndex
  import opened StoreAgreement
  import RenamePath

  class Store {
    var t: Tables
    var ix: Index

    ghost predicate Valid() reads this { Agree(t.s, ix) }

    constructor (lease: nat, recallWait: nat)
      ensures Valid() && t == Init(lease, recallWait)
    {
      t := Init(lease, recallWait);
      ix := Index(map[], map[], map[], map[], map[], map[]);
      new;
      assert forall c :: Having(OpenClients(map[]), c) == {} && Having(DelegClients(map[]), c) == {};
    }

    // ---------- questions answered through the indexes ----------

    method ShareConflictAt(p: Path, o: Owner, access: Bits, deny: Bits) returns (found: bool)
      requires IndexOk(ix.byPath, OpenPaths(t.s.opens))
      ensures found <==> ShareConflict(t.s, p, o, access, deny)
    {
      var opens, list := t.s.opens, Listed(ix.byPath, p);
      ListedExactly(ix.byPath, OpenPaths(opens), p);
      for i := 0 to |list|
        invariant forall k :: 0 <= k < i ==> !(opens[list[k]].owner != o && Clash(access, deny, opens[list[k]]))
      {
        var held := opens[list[i]];
        if held.owner != o && Clash(access, deny, held) { return true; }
      }
      found := false;
      forall x | x in opens && opens[x].path == p && opens[x].owner != o ensures !Clash(access, deny, opens[x]) {
        assert x in list;
      }
    }

    /** The owner's open on the path; the first in the list if a rename has given it several. */
    method FindOpenAt(p: Path, o: Owner) returns (r: Option<Other>)
      requires IndexOk(ix.byPath, OpenPaths(t.s.opens))
      ensures r == FindOpen(t.s, p, o, PickOf(r))
      ensures r.Some? ==> FirstOf(Listed(ix.byPath, p), t.s.opens, o, r.value)
    {
      var opens, list := t.s.opens, Listed(ix.byPath, p);
      ListedExactly(ix.byPath, OpenPaths(opens), p);
      for i := 0 to |list|
        invariant forall k :: 0 <= k < i ==> !OwnedBy(opens, list[k], o)
      {
        if opens[list[i]].owner == o {
          assert IsOpenOf(t.s, p, o, list[i]);
          return Some(list[i]);
        }
      }
      r := None;
      forall x ensures !IsOpenOf(t.s, p, o, x) {
        if x in opens && opens[x].path == p { assert x in list; }
      }
    }

    method HasLockState(p: Path, o: Owner) returns (found: bool)
      requires IndexOk(ix.locksByPath, LockPaths(t.s.locks))
      ensures found <==> exists l :: IsLockOf(t.s, p, o, l)
    {
      var locks, list := t.s.locks, Listed(ix.locksByPath, p);
      ListedExactly(ix.locksByPath, LockPaths(locks), p);
      for i := 0 to |list|
        invariant forall k :: 0 <= k < i ==> locks[list[k]].owner != o
      {
        if locks[list[i]].owner == o {
          assert IsLockOf(t.s, p, o, list[i]);
          return true;
        }
      }
      found := false;
      forall l ensures !IsLockOf(t.s, p, o, l) {
        if l in locks && locks[l].path == p { assert l in list; }
      }
    }

    static method AnyConflict(held: seq<LockRange>, r: LockRange) returns (found: bool)
      ensures found <==> RangesConflict(held, r)
    {
      for i := 0 to |held|
        invariant forall k :: 0 <= k < i ==> !(Overlap(held[k], r) && (held[k].write || r.write))
      {
        if Overlap(held[i], r) && (held[i].write || r.write) { return true; }
      }
      found := false;
    }

    method LockConflictAt(p: Path, o: Owner, r: LockRange) returns (found: bool)
      requires IndexOk(ix.locksByPath, LockPaths(t.s.locks))
      ensures found <==> LockConflict(t.s, p, o, r)
    {
      var locks, list := t.s.locks, Listed(ix.locksByPath, p);
      ListedExactly(ix.locksByPath, LockPaths(locks), p);
      for i := 0 to |list|
        invariant forall k :: 0 <= k < i ==> !(locks[list[k]].owner != o && RangesConflict(locks[list[k]].ranges, r))
      {
        if locks[list[i]].owner != o {
          var hit := AnyConflict(locks[list[i]].ranges, r);
          if hit { return true; }
        }
      }
      found := false;
      forall l | l in locks && locks[l].path == p && locks[l].owner != o ensures !RangesConflict(locks[l].ranges, r) {
        assert l in list;
      }
    }

    /** CLOSE asks only the locks listed under the open's path. */
    method LocksBlockCloseOf(x: Other) returns (found: bool)
      requires IndexOk(ix.locksByPath, LockPaths(t.s.locks)) && LocksHaveOpens(t.s.opens, t.s.locks) && x in t.s.opens
      ensures found <==> LocksBlockClose(t.s, x)
    {
      var locks, list := t.s.locks, Listed(ix.locksByPath, t.s.opens[x].path);
      ListedExactly(ix.locksByPath, LockPaths(locks), t.s.opens[x].path);
      for i := 0 to |list|
        invariant forall k :: 0 <= k < i ==> !(locks[list[k]].open == x && locks[list[k]].ranges != [])
      {
        if locks[list[i]].open == x && locks[list[i]].ranges != [] { return true; }
      }
      found := false;
      forall l | l in locks && locks[l].open == x ensures locks[l].ranges == [] { assert l in list; }
    }

    static method AnyBeyond(rs: seq<LockRange>, access: Bits) returns (found: bool)
      ensures found <==> RangesExceed(rs, access)
    {
      for i := 0 to |rs|
        invariant forall k :: 0 <= k < i ==> access.Allows(rs[k].write)
      {
        if !access.Allows(rs[i].write) { return true; }
      }
      found := false;
    }

    method LocksBlockDowngradeOf(x: Other, access: Bits) returns (found: bool)
      requires IndexOk(ix.locksByPath, LockPaths(t.s.locks)) && LocksHaveOpens(t.s.opens, t.s.locks) && x in t.s.opens
      ensures found <==> LocksBlockDowngrade(t.s, x, access)
    {
      var locks, list := t.s.locks, Listed(ix.locksByPath, t.s.opens[x].path);
      ListedExactly(ix.locksByPath, LockPaths(locks), t.s.opens[x].path);
      for i := 0 to |list|
        invariant forall k :: 0 <= k < i ==> !(locks[list[k]].open == x && RangesExceed(locks[list[k]].ranges, access))
      {
        if locks[list[i]].open == x {
          var hit := AnyBeyond(locks[list[i]].ranges, access);
          if hit { return true; }
        }
      }
      found := false;
      forall l | l in locks && locks[l].open == x ensures !RangesExceed(locks[l].ranges, access) { assert l in list; }
    }

    method OtherWriterAt(p: Path, c: ClientId) returns (found: bool)
      requires IndexOk(ix.byPath, OpenPaths(t.s.opens))
      ensures found <==> exists x :: x in t.s.opens && t.s.opens[x].path == p && t.s.opens[x].owner.client != c
                                     && (t.s.opens[x].access.w || t.s.opens[x].deny.r)
    {
      var opens, list := t.s.opens, Listed(ix.byPath, p);
      ListedExactly(ix.byPath, OpenPaths(opens), p);
      for i := 0 to |list|
        invariant forall k :: 0 <= k < i ==>
          !(opens[list[k]].owner.client != c && (opens[list[k]].access.w || opens[list[k]].deny.r))
      {
        var held := opens[list[i]];
        if held.owner.client != c && (held.access.w || held.deny.r) { return true; }
      }
      found := false;
      forall x | x in opens && opens[x].path == p
        ensures !(opens[x].owner.client != c && (opens[x].access.w || opens[x].deny.r))
      {
        assert x in list;
      }
    }

    method DelegationBusyAt(p: Path, c: ClientId) returns (found: bool)
      requires IndexOk(ix.delegsByPath, DelegPaths(t.s.delegs))
      ensures found <==> exists d :: d in t.s.delegs && t.s.delegs[d].path == p
                                     && (t.s.delegs[d].client == c || t.s.delegs[d].recalling)
    {
      var delegs, list := t.s.delegs, Listed(ix.delegsByPath, p);
      ListedExactly(ix.delegsByPath, DelegPaths(delegs), p);
      for i := 0 to |list|
        invariant forall k :: 0 <= k < i ==> !(delegs[list[k]].client == c || delegs[list[k]].recalling)
      {
        var held := delegs[list[i]];
        if held.client == c || held.recalling { return true; }
      }
      found := false;
      forall d | d in delegs && delegs[d].path == p ensures !(delegs[d].client == c || delegs[d].recalling) {
        assert d in list;
      }
    }

    /** The delegation rule, answered through the two path lists and the counter. */
    method MayGrant(p: Path, o: Owner, access: Bits) returns (ok: bool)
      requires Valid()
      ensures ok <==> CanGrant(t.cl, t.s, p, o, access)
    {
      var c := o.client;
      DelegCounter(t.s, ix, c);
      if c !in t.cl.all || !t.cl.all[c].cbUp || o !in t.s.okOwners || access != Bits(true, false)
         || CountOf(ix.delegCount, c) >= MAX_DELEGATIONS_PER_CLIENT {
        return false;
      }
      var writer := OtherWriterAt(p, c);
      if writer { return false; }
      var busy := DelegationBusyAt(p, c);
      ok := !busy;
    }

    method TouchClient(c: ClientId)
      modifies this`t
      ensures t == Touch(old(t), c)
    {
      if c in t.cl.all { t := t.(cl := t.cl.(all := t.cl.all[c := t.cl.all[c].(lastRenew := t.now)])); }
    }

    /** ownerForStateid: route a sequenced request and renew its client's lease. */
    method OwnerForStateid(x: Other) returns (r: Option<Owner>)
      requires OwnersAgree(ix.owners, t.s.opens, t.s.locks, t.s.closed)
      modifies this`t
      ensures t == TouchOwner(old(t), x) && t.s == old(t).s
      ensures r == if x in t.s.expired then None else SeqOwner(t.s, x)
    {
      assert OwnerAt(ix.owners, x) == SeqOwner(t.s, x);
      if x in t.s.expired || x !in ix.owners { return None; }
      r := Some(ix.owners[x]);
      TouchClient(ix.owners[x].client);
    }

    // ---------- clients and time ----------

    method Tick(d: nat)
      modifies this`t
      ensures t == old(t).(now := old(t).now + d)
    {
      t := t.(now := t.now + d);
    }

    /** SETCLIENTID: one pending record per owner string, and a new one supersedes it. */
    method SetClientIdAt(ownerId: string, principal: string) returns (st: Status)
      modifies this`t
      ensures (t, st) == SetClientId(old(t), ownerId, principal) && t.s == old(t).s
    {
      var cl := t.cl;
      if ownerId in cl.byOwner && cl.byOwner[ownerId] in cl.all && cl.all[cl.byOwner[ownerId]].principal != principal {
        return ClidInUse;
      }
      var todo, kept := cl.unconfirmed, {};
      while todo != {}
        invariant todo <= cl.unconfirmed && kept == NotOwnedBy(cl, cl.unconfirmed - todo, ownerId)
      {
        var c :| c in todo;
        todo := todo - {c};
        if !(c in cl.all && cl.all[c].ownerId == ownerId) { kept := kept + {c}; }
      }
      assert cl.unconfirmed - todo == cl.unconfirmed;
      var id := cl.next + 1;
      t := t.(cl := cl.(next := id, unconfirmed := kept + {id},
                        all := cl.all[id := Client(ownerId, principal, false, t.now)]));
      st := Ok;
    }

    method RenewLease(id: ClientId) returns (st: Status)
      modifies this`t
      ensures (t, st) == Renew(old(t), id) && t.s == old(t).s
    {
      if id !in t.cl.confirmed { return if id in t.cl.expiredIds then Expired else StaleClientid; }
      TouchClient(id);
      st := Ok;
    }

    /** The client's callback path answered. */
    method CallbackAnswered(id: ClientId)
      modifies this`t
      ensures t == ProbeCallback(old(t), id) && t.s == old(t).s
    {
      if id in t.cl.confirmed && id in t.cl.all {
        t := t.(cl := t.cl.(all := t.cl.all[id := t.cl.all[id].(cbUp := true)]));
      }
    }

    // ---------- OPEN ----------

    /** OPEN's check: fold in what the owner holds on the path, and look for a conflict. */
    method CheckOpen(o: Owner, p: Path, access: Bits, deny: Bits, truncating: bool)
      returns (q: Option<Pending>, st: Status, ghost pick: Other)
      requires Valid()
      modifies this`t
      ensures t == Touch(old(t), o.client) && (q, st) == OpenCheck(t.s, o, p, access, deny, truncating, pick)
    {
      TouchClient(o.client);
      pick := 0;
      if access == Bits(false, false) { return None, Inval, pick; }
      var held := FindOpenAt(p, o);
      pick := PickOf(held);
      var ua, ud := access, deny;
      if held.Some? { ua, ud := access.Union(t.s.opens[held.value].access), deny.Union(t.s.opens[held.value].deny); }
      var conflict := ShareConflictAt(p, o, ua, ud);
      if conflict { return None, ShareDenied, pick; }
      return Some(Pending(p, access, deny, truncating, ua, ud, false)), Ok, pick;
    }

    /** OPEN_CONFIRM. */
    method ConfirmOpen(x: Other, seqid: nat, p: Path) returns (st: Status)
      requires Valid()
      modifies this
      ensures Valid() && (t, st) == OpenConfirm(old(t), x, seqid, p)
    {
      var o := OwnerForStateid(x);
      if o.None? { return if x in t.s.expired then Expired else BadStateid; }
      st := ConfirmStatus(t.s, x, seqid, p);
      if st == Ok { t := t.(s := t.s.(okOwners := t.s.okOwners + {o.value})); }
    }

    method AddOpen(o: Owner, q: Pending)
      requires Valid() && t.s.next + 1 !in t.s.opens && t.s.next + 1 !in t.s.locks
      modifies this
      ensures Valid() && t == old(t).(s := WithOpen(old(t).s, o, q))
    {
      AddOpenAgrees(t.s, ix, o, q);
      var x := t.s.next + 1;
      t := t.(s := WithOpen(t.s, o, q));
      ix := IndexedOpen(ix, x, Open(1, o, q.path, q.unionAccess, q.unionDeny));
    }

    method SetShares(x: Other, access: Bits, deny: Bits)
      requires Valid() && x in t.s.opens
      modifies this`t
      ensures Valid() && t == old(t).(s := WithShares(old(t).s, x, access, deny))
    {
      SetOpenAgrees(t.s, ix, x, access, deny);
      t := t.(s := WithShares(t.s, x, access, deny));
    }

    method AddDelegation(c: ClientId, p: Path)
      requires Valid() && t.s.next + 1 !in t.s.delegs
      modifies this
      ensures Valid() && t == old(t).(s := WithDeleg(old(t).s, c, p))
    {
      AddDelegAgrees(t.s, ix, c, p);
      var d := t.s.next + 1;
      t := t.(s := WithDeleg(t.s, c, p));
      ix := IndexedDeleg(ix, d, Deleg(1, c, p, false, 0));
    }

    method PlaceOpenAt(o: Owner, q: Pending, held: Option<Other>)
      requires Valid() && t.s.next + 1 !in t.s.opens && t.s.next + 1 !in t.s.locks
      requires held == FindOpen(t.s, q.path, o, PickOf(held))
      modifies this
      ensures Valid() && t == old(t).(s := PlaceOpen(old(t).s, o, q, PickOf(held)))
    {
      match held {
        case None => AddOpen(o, q);
        case Some(x) => SetShares(x, q.unionAccess, q.unionDeny);
      }
    }

    method GrantAt(p: Path, o: Owner, access: Bits)
      requires Valid() && t.s.next + 1 !in t.s.delegs
      modifies this
      ensures Valid() && t == old(t).(s := Grant(old(t).cl, old(t).s, p, o, access))
    {
      var may := MayGrant(p, o, access);
      if may { AddDelegation(o.client, p); }
    }

    method OpenStatusAt(o: Owner, q: Pending) returns (st: Status, held: Option<Other>)
      requires Valid()
      ensures st == OpenStatus(t.s, o, q) && held == FindOpen(t.s, q.path, o, PickOf(held))
      ensures held.Some? ==> FirstOf(Listed(ix.byPath, q.path), t.s.opens, o, held.value)
    {
      held := FindOpenAt(q.path, o);
      var conflict := ShareConflictAt(q.path, o, q.unionAccess, q.unionDeny);
      OpenCounter(t.s, ix, o.client);
      st := if conflict then ShareDenied
            else if held.None? && CountOf(ix.openCount, o.client) >= MAX_OPENS_PER_CLIENT then Resource
            else Ok;
    }

    /** OPEN's commit: re-check, place the open, maybe grant a delegation. */
    method CommitOpen(o: Owner, q: Pending, delegations: bool) returns (st: Status, ghost pick: Other)
      requires Valid() && Facts(t.s)
      modifies this
      ensures Valid() && (t, st) == OpenCommit(old(t), o, q, delegations, pick)
      ensures HasOpen(old(t).s, q.path, o) ==> FirstOf(Listed(old(ix).byPath, q.path), old(t).s.opens, o, pick)
    {
      var held;
      st, held := OpenStatusAt(o, q);
      pick := PickOf(held);
      NextIsFresh(t.s, o, q, pick);
      if st != Ok { return; }
      PlaceOpenAt(o, q, held);
      if delegations { GrantAt(q.path, o, q.unionAccess); }
      TouchClient(o.client);
    }

    // ---------- OPEN_DOWNGRADE and CLOSE ----------

    method DowngradeStatusAt(x: Other, seqid: nat, p: Path, access: Bits, deny: Bits) returns (st: Status)
      requires Valid() && LocksHaveOpens(t.s.opens, t.s.locks) && x !in t.s.expired && SeqOwner(t.s, x).Some?
      ensures st == DowngradeStatus(t.s, x, seqid, p, access, deny)
    {
      if access == Bits(false, false) { return Inval; }
      st := ResolveOpen(t.s, x, seqid, p);
      if st != Ok { return; }
      if !access.Within(t.s.opens[x].access) || !deny.Within(t.s.opens[x].deny) { return Inval; }
      var blocked := LocksBlockDowngradeOf(x, access);
      if blocked { return LocksHeld; }
    }

    method DowngradeOpen(x: Other, seqid: nat, p: Path, access: Bits, deny: Bits) returns (st: Status)
      requires Valid() && LocksHaveOpens(t.s.opens, t.s.locks)
      modifies this
      ensures Valid() && (t, st) == OpenDowngrade(old(t), x, seqid, p, access, deny)
    {
      var o := OwnerForStateid(x);
      if o.None? { return if x in t.s.expired then Expired else BadStateid; }
      st := DowngradeStatusAt(x, seqid, p, access, deny);
      if st == Ok { SetShares(x, access, deny); }
    }

    /** Forgets one lock state in the table, the owner map and the path list. */
    method DropLock(l: Other)
      requires Valid() && l in t.s.locks && l !in t.s.opens && l !in t.s.closed
      modifies this
      ensures Valid() && t == old(t).(s := old(t).s.(locks := old(t).s.locks - {l}))
    {
      DropLockAgrees(t.s, ix, l);
      var lists := Unlist(ix.locksByPath, t.s.locks[l].path, l);
      ix := ix.(owners := ix.owners - {l}, locksByPath := lists);
      t := t.(s := t.s.(locks := t.s.locks - {l}));
    }

    /** Walks a set of lock states and forgets each; map order is arbitrary. */
    method DropLocks(ls: set<Other>)
      requires Valid() && ls <= t.s.locks.Keys && IdsBounded(t.s)
      modifies this
      ensures Valid() && t == old(t).(s := old(t).s.(locks := old(t).s.locks - ls))
    {
      var todo := ls;
      assert old(t).s.locks - (ls - todo) == t.s.locks;
      while todo != {}
        invariant todo <= ls && Valid()
        invariant t == old(t).(s := old(t).s.(locks := old(t).s.locks - (ls - todo)))
      {
        var l :| l in todo;
        assert old(t).s.locks - (ls - todo) - {l} == old(t).s.locks - (ls - (todo - {l}));
        DropLock(l);
        todo := todo - {l};
      }
      assert ls - todo == ls;
    }

    method CloseStatusAt(x: Other, seqid: nat, p: Path) returns (st: Status)
      requires Valid() && LocksHaveOpens(t.s.opens, t.s.locks)
      ensures st == CloseStatus(t.s, x, seqid, p)
    {
      st := ResolveOpen(t.s, x, seqid, p);
      if st != Ok { return; }
      var blocked := LocksBlockCloseOf(x);
      if blocked { return LocksHeld; }
    }

    /** The open's row goes; of the owner's closed stateids only this one stays routable. */
    method ForgetOpen(x: Other)
      requires Valid() && IdsBounded(t.s) && x in t.s.opens && forall l :: l in t.s.locks ==> t.s.locks[l].open != x
      modifies this
      ensures Valid() && t == old(t).(s := WithoutOpen(old(t).s, x))
    {
      CloseAgrees(t.s, ix, x);
      var held := t.s.opens[x];
      var lists := Unlist(ix.byPath, held.path, x);
      var owners := PruneOwners(ix.owners, t.s.opens - {x}, x, held.owner);
      ix := ix.(byPath := lists, owners := owners,
                openCount := ix.openCount[held.owner.client := CountOf(ix.openCount, held.owner.client) - 1]);
      t := t.(s := WithoutOpen(t.s, x));
    }

    /** The loop over all routed stateids that CLOSE runs. */
    static method PruneOwners(owners: map<Other, Owner>, opens: map<Other, Open>, x: Other, o: Owner)
      returns (out: map<Other, Owner>)
      ensures out == owners - Priors(owners, opens, x, o)
    {
      out := owners;
      var todo := owners.Keys;
      while todo != {}
        invariant todo <= owners.Keys
        invariant out == owners - (Priors(owners, opens, x, o) - todo)
      {
        var prior :| prior in todo;
        todo := todo - {prior};
        if prior != x && owners[prior] == o && prior !in opens { out := out - {prior}; }
      }
    }

    method CloseOpen(x: Other, seqid: nat, p: Path) returns (st: Status)
      requires Valid() && Facts(t.s)
      modifies this
      ensures Valid() && (t, st) == Close(old(t), x, seqid, p)
    {
      var o := OwnerForStateid(x);
      st := CloseStatusAt(x, seqid, p);
      if st != Ok { return; }
      ghost var s0 := t.s;
      DropLocks(set l | l in t.s.locks && t.s.locks[l].open == x && t.s.locks[l].ranges == []);
      EmptyLocksGone(s0, t.s, x);
      ForgetOpen(x);
    }

    // ---------- byte-range locks ----------

    method AddLock(lo: Owner, x: Other, p: Path, r: LockRange)
      requires Valid() && t.s.next + 1 !in t.s.opens && t.s.next + 1 !in t.s.locks
      modifies this
      ensures Valid() && t == old(t).(s := WithLock(old(t).s, lo, x, p, r))
    {
      AddLockAgrees(t.s, ix, lo, x, p, r);
      ix := IndexedLock(ix, t.s.next + 1, Lock(1, lo.client, lo, x, p, [r]));
      t := t.(s := WithLock(t.s, lo, x, p, r));
    }

    method LockNewStatusAt(x: Other, seqid: nat, lo: Owner, p: Path, r: LockRange) returns (st: Status)
      requires Valid()
      ensures st == LockNewStatus(t.s, x, seqid, lo, p, r)
    {
      st := ResolveOpen(t.s, x, seqid, p);
      if st != Ok { return; }
      if t.s.opens[x].owner.client != lo.client { return BadStateid; }
      if !t.s.opens[x].access.Allows(r.write) { return OpenMode; }
      var has := HasLockState(p, lo);
      if has { return Inval; }
      var conflict := LockConflictAt(p, lo, r);
      if conflict { return Denied; }
    }

    /** LOCK with a new lock-owner. */
    method LockFirst(x: Other, seqid: nat, lo: Owner, p: Path, r: LockRange) returns (st: Status)
      requires Valid() && IdsBounded(t.s)
      modifies this
      ensures Valid() && (t, st) == LockNew(old(t), x, seqid, lo, p, r)
    {
      if x in t.s.expired { return Expired; }
      if x !in t.s.opens { return BadStateid; }
      TouchClient(t.s.opens[x].owner.client);
      st := ClientStatus(t.cl, lo.client);
      if st != Ok { return; }
      TouchClient(lo.client);
      st := LockNewStatusAt(x, seqid, lo, p, r);
      if st == Ok { AddLock(lo, x, p, r); }
    }

    method SetRanges(l: Other, ranges: seq<LockRange>)
      requires Valid() && l in t.s.locks
      modifies this`t
      ensures Valid() && t == old(t).(s := WithRanges(old(t).s, l, ranges))
    {
      SetRangesAgrees(t.s, ix, l, ranges);
      t := t.(s := WithRanges(t.s, l, ranges));
    }

    method LockMoreStatusAt(l: Other, seqid: nat, p: Path, r: LockRange) returns (st: Status, ranges: seq<LockRange>)
      requires Valid() && r.Wf() && AllCanonical(t.s)
      ensures st == LockMoreStatus(t.s, l, seqid, p, r)
      ensures st == Ok ==> ranges == Updated(t.s.locks[l].ranges, r)
    {
      ranges := [];
      st := ResolveLock(t.s, l, seqid, p);
      if st != Ok { return; }
      var held := t.s.locks[l];
      if held.open !in t.s.opens { return BadStateid, []; }
      if !t.s.opens[held.open].access.Allows(r.write) { return OpenMode, []; }
      var conflict := LockConflictAt(p, held.owner, r);
      if conflict { return Denied, []; }
      ranges := SetLockRange(held.ranges, r);
      if |ranges| > MAX_LOCK_RANGES { return Resource, []; }
    }

    /** LOCK with an existing lock stateid. */
    method LockAgain(l: Other, seqid: nat, p: Path, r: LockRange) returns (st: Status)
      requires Valid() && r.Wf() && AllCanonical(t.s)
      modifies this
      ensures Valid() && (t, st) == LockMore(old(t), l, seqid, p, r)
    {
      var o := OwnerForStateid(l);
      var ranges;
      st, ranges := LockMoreStatusAt(l, seqid, p, r);
      if st == Ok { SetRanges(l, ranges); }
    }

    method Unlock(l: Other, seqid: nat, p: Path, r: LockRange) returns (st: Status)
      requires Valid() && r.Wf() && AllCanonical(t.s)
      modifies this
      ensures Valid() && (t, st) == LockU(old(t), l, seqid, p, r)
    {
      var o := OwnerForStateid(l);
      st := LockUStatus(t.s, l, seqid, p);
      if st == Ok {
        var ranges := SubtractRange(t.s.locks[l].ranges, r);
        SetRanges(l, ranges);
      }
    }

    /** RELEASE_LOCKOWNER: refused while any of the owner's lock states holds a range. */
    method ReleaseOwner(lo: Owner) returns (st: Status)
      requires Valid() && IdsBounded(t.s)
      modifies this
      ensures Valid() && (t, st) == ReleaseLockOwner(old(t), lo)
    {
      if lo.client !in t.cl.confirmed { return ClientStatus(t.cl, lo.client); }
      TouchClient(lo.client);
      var mine := set l | l in t.s.locks && t.s.locks[l].owner == lo;
      if exists l :: l in mine && t.s.locks[l].ranges != [] { return LocksHeld; }
      assert t.s.locks - mine == WithoutLocksOf(t.s, lo).locks;
      DropLocks(mine);
      st := Ok;
    }

    // ---------- delegations ----------

    method DropDelegation(d: Other)
      requires Valid() && d in t.s.delegs
      modifies this
      ensures Valid() && t == old(t).(s := old(t).s.(delegs := old(t).s.delegs - {d}))
    {
      DropDelegAgrees(t.s, ix, d);
      var held := t.s.delegs[d];
      var lists := Unlist(ix.delegsByPath, held.path, d);
      var count := CountOf(ix.delegCount, held.client) - 1;
      ix := ix.(delegsByPath := lists, delegCount := ix.delegCount[held.client := count]);
      t := t.(s := t.s.(delegs := t.s.delegs - {d}));
    }

    method ReturnDelegation(d: Other, seqid: nat, p: Path) returns (st: Status)
      requires Valid()
      modifies this
      ensures Valid() && (t, st) == DelegReturn(old(t), d, seqid, p)
    {
      st := ResolveDeleg(t.s, d, seqid, p);
      if st != Ok { return; }
      var c := t.s.delegs[d].client;
      DropDelegation(d);
      TouchClient(c);
    }

    method RevokeDelegation(d: Other)
      requires Valid() && d in t.s.delegs
      modifies this
      ensures Valid()
      ensures var s := old(t).s;
        t == old(t).(s := s.(delegs := s.delegs - {d}, revoked := s.revoked[d := old(t).now]))
    {
      DropDelegation(d);
      TombsAgree(t.s, ix, t.s.revoked[d := t.now], t.s.expired);
      t := t.(s := t.s.(revoked := t.s.revoked[d := t.now]));
    }

    method MarkRecall(d: Other)
      requires Valid() && d in t.s.delegs
      modifies this`t
      ensures Valid()
      ensures t == old(t).(s := old(t).s.(delegs :=
        old(t).s.delegs[d := old(t).s.delegs[d].(recalling := true, recallAt := old(t).now)]))
    {
      var held := t.s.delegs[d].(recalling := true, recallAt := t.now);
      SetDelegAgrees(t.s, ix, d, held);
      t := t.(s := t.s.(delegs := t.s.delegs[d := held]));
    }

    /** One delegation met by a disturbing request: left alone, revoked, or recalled. */
    method RecallOne(d: Other, except: Option<ClientId>) returns (blocks: bool, job: bool)
      requires Valid() && d in t.s.delegs
      modifies this
      ensures Valid() && t == old(t).(s := RecallOneState(old(t), d, except))
      ensures var held := old(t).s.delegs[d];
              && blocks == Blocks(old(t), held, except)
              && job == (Some(held.client) != except && !held.recalling)
    {
      var held := t.s.delegs[d];
      if Some(held.client) == except { return false, false; }
      if Forfeit(t.now, t.recallWait, held) {
        RevokeDelegation(d);
        return false, false;
      }
      blocks, job := true, !held.recalling;
      if job { MarkRecall(d); }
    }

    /** The walk over a copy of the path's delegations; `jobs` are the recalls to send. */
    method RecallWalk(list: seq<Other>, except: Option<ClientId>) returns (blocked: bool, jobs: set<Other>)
      requires Valid() && NoDup(list) && forall i :: 0 <= i < |list| ==> list[i] in t.s.delegs
      modifies this
      ensures Valid() && t == RecallSoFar(old(t), list, except)
      ensures jobs == JobsIn(old(t), list, except) && (blocked <==> BlockedIn(old(t), list, except))
    {
      ghost var t0 := t;
      blocked, jobs := false, {};
      RecallStart(t0, list, except);
      for i := 0 to |list|
        invariant Valid() && t == RecallSoFar(t0, list[..i], except)
        invariant jobs == JobsIn(t0, list[..i], except)
        invariant blocked <==> BlockedIn(t0, list[..i], except)
      {
        RecallStep(t0, list, i, except);
        RecallSets(t0, list, i, except);
        RecallBlocks(t0, list, i, except);
        var blocks, job := RecallOne(list[i], except);
        blocked := blocked || blocks;
        if job { jobs := jobs + {list[i]}; }
      }
      assert list[..|list|] == list;
    }

    method RecallDelegations(p: Path, except: Option<ClientId>) returns (st: Status, jobs: set<Other>)
      requires Valid()
      modifies this
      ensures Valid() && (t, st) == Recall(old(t), p, except) && jobs == RecallJobs(old(t).s, p, except)
    {
      var list := Listed(ix.delegsByPath, p);
      ListedExactly(ix.delegsByPath, DelegPaths(t.s.delegs), p);
      RecallDone(t, list, p, except);
      var blocked;
      blocked, jobs := RecallWalk(list, except);
      st := if blocked then Delay else Ok;
    }

    // ---------- client release and lease expiry ----------

    /** The walk over the open table in releaseLocked; owners and counters are settled after it. */
    static method DropOpenLists(opens: map<Other, Open>, byPath: map<Path, seq<Other>>, c: ClientId)
      returns (opens': map<Other, Open>, byPath': map<Path, seq<Other>>)
      requires IndexOk(byPath, OpenPaths(opens))
      ensures opens' == OpensNotOf(opens, {c}) && IndexOk(byPath', OpenPaths(opens'))
    {
      opens', byPath' := opens, byPath;
      var todo := opens.Keys;
      while todo != {}
        invariant todo <= opens.Keys && IndexOk(byPath', OpenPaths(opens'))
        invariant opens' == opens - (OpensHeldBy(opens, {c}) - todo)
      {
        var x :| x in todo;
        todo := todo - {x};
        if opens[x].owner.client == c {
          OpensDrop(byPath', opens', x);
          byPath' := Unlist(byPath', opens[x].path, x);
          opens' := opens' - {x};
        }
      }
      assert opens' == OpensNotOf(opens, {c});
    }

    static method DropLockLists(locks: map<Other, Lock>, byPath: map<Path, seq<Other>>, c: ClientId)
      returns (locks': map<Other, Lock>, byPath': map<Path, seq<Other>>)
      requires IndexOk(byPath, LockPaths(locks))
      ensures locks' == LocksNotOf(locks, {c}) && IndexOk(byPath', LockPaths(locks'))
    {
      locks', byPath' := locks, byPath;
      ghost var mine := set x | x in locks && locks[x].client == c;
      var todo := locks.Keys;
      while todo != {}
        invariant todo <= locks.Keys && IndexOk(byPath', LockPaths(locks'))
        invariant locks' == locks - (mine - todo)
      {
        var x :| x in todo;
        todo := todo - {x};
        if locks[x].client == c {
          LocksDrop(byPath', locks', x);
          byPath' := Unlist(byPath', locks[x].path, x);
          locks' := locks' - {x};
        }
      }
      assert locks' == LocksNotOf(locks, {c});
    }

    method DropDelegationsOf(c: ClientId)
      requires Valid()
      modifies this
      ensures Valid() && t == old(t).(s := old(t).s.(delegs := DelegsNotOf(old(t).s.delegs, {c})))
    {
      ghost var t0 := t;
      var todo := t.s.delegs.Keys;
      while todo != {}
        invariant todo <= t0.s.delegs.Keys && Valid()
        invariant t == t0.(s := t0.s.(delegs := t0.s.delegs - (DelegsHeldBy(t0.s.delegs, {c}) - todo)))
      {
        var d :| d in todo;
        if t.s.delegs[d].client == c { DropDelegation(d); }
        todo := todo - {d};
      }
      assert t0.s.delegs - DelegsHeldBy(t0.s.delegs, {c}) == DelegsNotOf(t0.s.delegs, {c});
    }

    /** Opens, owner map, locks and counters of a released client, before its delegations go. */
    method DropOpensAndLocksOf(c: ClientId)
      requires Valid() && Facts(t.s)
      modifies this
      ensures Valid() && t == old(t).(s := WithoutStateOf(old(t).s, {c}).(delegs := old(t).s.delegs))
    {
      ghost var s0, ix0 := t.s, ix;
      var opens, byPath := DropOpenLists(t.s.opens, ix.byPath, c);
      var locks, locksByPath := DropLockLists(t.s.locks, ix.locksByPath, c);
      ix := ix.(byPath := byPath, locksByPath := locksByPath,
                openCount := ix.openCount[c := 0], owners := OwnersNotOf(ix.owners, {c}));
      t := t.(s := t.s.(opens := opens, locks := locks, closed := OwnersNotOf(t.s.closed, {c})));
      UncountAll(ix0.openCount, s0.opens, c);
      ReleaseOwners(ix0.owners, s0, c);
    }

    /** releaseLocked: a client's record goes with all its state. */
    method ReleaseClient(c: ClientId)
      requires Valid() && Facts(t.s) && ClientsOk(t.cl) && c in t.cl.confirmed
      modifies this
      ensures Valid() && t == Release(old(t), {c})
    {
      ReleasedByOwner(t.cl, c);
      t := t.(cl := t.cl.(confirmed := t.cl.confirmed - {c}, byOwner := t.cl.byOwner - {t.cl.all[c].ownerId}));
      DropOpensAndLocksOf(c);
      DropDelegationsOf(c);
    }

    /** SETCLIENTID_CONFIRM: a rebooted client's old record is released first. */
    method ConfirmClientId(id: ClientId, verifierOk: bool) returns (st: Status)
      requires Valid() && Facts(t.s) && ClientsOk(t.cl)
      modifies this
      ensures Valid() && (t, st) == ConfirmClient(old(t), id, verifierOk)
    {
      if id in t.cl.unconfirmed && verifierOk {
        var owner := t.cl.all[id].ownerId;
        if owner in t.cl.byOwner { ReleaseClient(t.cl.byOwner[owner]); }
        t := t.(cl := Confirmed(t.cl, id, owner));
        TouchClient(id);
        return Ok;
      }
      if id in t.cl.confirmed && verifierOk {
        TouchClient(id);
        return Ok;
      }
      st := StaleClientid;
    }

    /** Recalls that nobody answered forfeit their delegations. */
    method RevokeForfeited()
      requires Valid()
      modifies this
      ensures Valid()
      ensures var s, now := old(t).s, old(t).now;
        t == old(t).(s := Revoke(s, ForfeitOf(s, s.delegs.Keys, now, old(t).recallWait), now))
    {
      ghost var t0 := t;
      ghost var gone := ForfeitOf(t0.s, t0.s.delegs.Keys, t0.now, t0.recallWait);
      var todo := t.s.delegs.Keys;
      RevokeNone(t.s, t.now);
      assert gone - todo == {};
      while todo != {}
        invariant todo <= t0.s.delegs.Keys && Valid()
        invariant t == t0.(s := Revoke(t0.s, gone - todo, t0.now))
      {
        var d :| d in todo;
        if Forfeit(t.now, t.recallWait, t.s.delegs[d]) {
          RevokeMore(t0.s, gone - todo, d, t0.now);
          assert gone - todo + {d} == gone - (todo - {d});
          RevokeDelegation(d);
        } else {
          assert gone - todo == gone - (todo - {d});
        }
        todo := todo - {d};
      }
      assert gone - todo == gone;
    }

    /** One lapsed client: tombstones for all its stateids, then release. */
    method ExpireClient(c: ClientId)
      requires Valid() && Facts(t.s) && ClientsOk(t.cl) && c in t.cl.confirmed
      modifies this
      ensures Valid() && t == ExpireClients(old(t), {c})
    {
      var ids := OwnedIds(ix.owners, c) + DelegsHeldBy(t.s.delegs, {c});
      OwnedIdsExactly(t.s, ix.owners, c);
      TombsAgree(t.s, ix, t.s.revoked, t.s.expired + Stamped(ids, t.now));
      t := t.(cl := t.cl.(expiredIds := t.cl.expiredIds + Stamped({c}, t.now)),
              s := t.s.(expired := t.s.expired + Stamped(ids, t.now)));
      ReleaseClient(c);
    }

    method ExpireIfLapsed(c: ClientId)
      requires Valid() && Facts(t.s) && ClientsOk(t.cl) && c in t.cl.confirmed
      modifies this
      ensures Valid()
      ensures var lapsed := Elapsed(old(t).cl.all[c].lastRenew, old(t).lease, old(t).now);
        t == if lapsed then ExpireClients(old(t), {c}) else old(t)
    {
      if Elapsed(t.cl.all[c].lastRenew, t.lease, t.now) { ExpireClient(c); }
    }

    /** The walk over confirmed clients. */
    method ExpireLapsed()
      requires Valid() && Facts(t.s) && ClientsOk(t.cl)
      modifies this
      ensures Valid() && t == ExpireClients(old(t), LapsedClients(old(t)))
    {
      ghost var t0 := t;
      var todo := t.cl.confirmed;
      ExpireNone(t);
      assert LapsedClients(t0) - todo == {};
      while todo != {}
        invariant todo <= t0.cl.confirmed && Valid()
        invariant t == ExpireClients(t0, LapsedClients(t0) - todo)
      {
        var c :| c in todo;
        FactsKept(t0, LapsedClients(t0) - todo);
        LapsedStep(t0, todo, c);
        ExpireIfLapsed(c);
        todo := todo - {c};
      }
      assert LapsedClients(t0) - todo == LapsedClients(t0);
    }

    method SweepExpired()
      requires Valid() && Facts(t.s) && ClientsOk(t.cl)
      modifies this
      ensures Valid() && t == Sweep(old(t))
    {
      TombsAgree(t.s, ix, SweptTombs(t.s, t.lease, t.now).revoked, SweptTombs(t.s, t.lease, t.now).expired);
      SweepKeepsFacts(t);
      t := t.(s := SweptTombs(t.s, t.lease, t.now));
      RevokeForfeited();
      t := t.(cl := SweptClients(t.cl, t.lease, t.now));
      ExpireLapsed();
    }

    // ---------- rename ----------

    /** RENAME: the three indexes are walked in arbitrary orders, which may revisit new keys. */
    method RenameAll(from: Path, to: Path, opensOrder: seq<Path>, locksOrder: seq<Path>, delegsOrder: seq<Path>)
      requires Valid() && Incomparable(from, to)
      requires RenamePath.Covers(opensOrder, ix.byPath) && RenamePath.Covers(locksOrder, ix.locksByPath)
      requires RenamePath.Covers(delegsOrder, ix.delegsByPath)
      modifies this
      ensures Valid() && t == old(t).(s := Rename(old(t).s, from, to))
    {
      var opens, byPath := RenameOpens(from, to, opensOrder);
      var locks, locksByPath := RenameLocks(from, to, locksOrder);
      var delegs, delegsByPath := RenameDelegs(from, to, delegsOrder);
      RenamedOwners(t.s, ix.owners, from, to);
      MovedClientMaps(t.s, from, to);
      t := t.(s := t.s.(opens := opens, locks := locks, delegs := delegs));
      ix := ix.(byPath := byPath, locksByPath := locksByPath, delegsByPath := delegsByPath);
    }

    method RenameOpens(from: Path, to: Path, order: seq<Path>)
      returns (opens: map<Other, Open>, byPath: map<Path, seq<Other>>)
      requires IndexOk(ix.byPath, OpenPaths(t.s.opens))
      requires Incomparable(from, to) && RenamePath.Covers(order, ix.byPath)
      ensures opens == MovedOpens(t.s.opens, from, to) && IndexOk(byPath, OpenPaths(opens))
    {
      var table := RenamePath.Table(ix.byPath, OpenPaths(t.s.opens));
      var moved := RenamePath.Rename(table, from, to, order);
      RenamePath.RenameRelocates(table, from, to, order);
      RenamePath.RenameIndexOk(table, from, to, order);
      Repathed(t.s, from, to);
      MovedPathMaps(t.s, from, to);
      opens, byPath := map x | x in t.s.opens :: t.s.opens[x].(path := moved.paths[x]), moved.index;
    }

    method RenameLocks(from: Path, to: Path, order: seq<Path>)
      returns (locks: map<Other, Lock>, byPath: map<Path, seq<Other>>)
      requires IndexOk(ix.locksByPath, LockPaths(t.s.locks)) && Incomparable(from, to)
      requires RenamePath.Covers(order, ix.locksByPath)
      ensures locks == MovedLocks(t.s.locks, from, to) && IndexOk(byPath, LockPaths(locks))
    {
      var table := RenamePath.Table(ix.locksByPath, LockPaths(t.s.locks));
      var moved := RenamePath.Rename(table, from, to, order);
      RenamePath.RenameRelocates(table, from, to, order);
      RenamePath.RenameIndexOk(table, from, to, order);
      Repathed(t.s, from, to);
      MovedPathMaps(t.s, from, to);
      locks, byPath := map x | x in t.s.locks :: t.s.locks[x].(path := moved.paths[x]), moved.index;
    }

    method RenameDelegs(from: Path, to: Path, order: seq<Path>)
      returns (delegs: map<Other, Deleg>, byPath: map<Path, seq<Other>>)
      requires IndexOk(ix.delegsByPath, DelegPaths(t.s.delegs)) && Incomparable(from, to)
      requires RenamePath.Covers(order, ix.delegsByPath)
      ensures delegs == MovedDelegs(t.s.delegs, from, to) && IndexOk(byPath, DelegPaths(delegs))
    {
      var table := RenamePath.Table(ix.delegsByPath, DelegPaths(t.s.delegs));
      var moved := RenamePath.Rename(table, from, to, order);
      RenamePath.RenameRelocates(table, from, to, order);
      RenamePath.RenameIndexOk(table, from, to, order);
      Repathed(t.s, from, to);
      MovedPathMaps(t.s, from, to);
      delegs, byPath := map x | x in t.s.delegs :: t.s.delegs[x].(path := moved.paths[x]), moved.index;
    }
  }
}
