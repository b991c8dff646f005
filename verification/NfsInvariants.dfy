/**
 What every NFSv4 state operation keeps: share reservations are compatible, lock
 ranges exclude one another and are backed by a live open, stateids are fresh.
 */
module NfsInvariants {
  import opened LockRanges
  import opened NfsTables

  // ---------- the invariants, table by table ----------

  /** Different opens of a path have different owners and compatible reservations. */
  ghost predicate SharesOk(opens: map<Other, Open>) {
    forall x, y :: x in opens && y in opens && x != y && opens[x].path == opens[y].path ==>
      opens[x].owner != opens[y].owner && !Clash(opens[x].access, opens[x].deny, opens[y])
  }

  /** An owner has at most one open of a path. */
  ghost predicate UniqueOpens(opens: map<Other, Open>) {
    forall x, y | x in opens && y in opens ::
      opens[x].path == opens[y].path && opens[x].owner == opens[y].owner ==> x == y
  }

  /** A lock state, its ranges in order, stands on an open of its own client and path. */
  ghost predicate StandsOn(l: Lock, o: Open) {
    l.path == o.path && l.client == o.owner.client && l.owner.client == l.client && Canonical(l.ranges)
  }

  /** And the open's access covers its ranges. */
  ghost predicate BackedBy(l: Lock, o: Open) { StandsOn(l, o) && !RangesExceed(l.ranges, o.access) }

  ghost predicate LocksStand(opens: map<Other, Open>, locks: map<Other, Lock>) {
    forall l :: l in locks ==> locks[l].open in opens && StandsOn(locks[l], opens[locks[l].open])
  }

  ghost predicate LocksBacked(opens: map<Other, Open>, locks: map<Other, Lock>) {
    forall l :: l in locks ==> locks[l].open in opens && BackedBy(locks[l], opens[locks[l].open])
  }

  /** No byte is write-locked in one list while the other list holds it. */
  ghost predicate Excludes(a: seq<LockRange>, b: seq<LockRange>) {
    forall byte: nat :: ModeAt(a, byte) == WriteLocked ==> ModeAt(b, byte) == Unlocked
  }

  ghost predicate LocksExclusive(locks: map<Other, Lock>) {
    forall l, m :: l in locks && m in locks && l != m && locks[l].path == locks[m].path ==>
      locks[l].owner != locks[m].owner && Excludes(locks[l].ranges, locks[m].ranges)
  }

  /** No client's delegation stands beside another client's write or deny-read open. */
  ghost predicate DelegationsOk(opens: map<Other, Open>, delegs: map<Other, Deleg>) {
    forall d, x | d in delegs && x in opens ::
      delegs[d].path == opens[x].path && delegs[d].client != opens[x].owner.client ==>
        !opens[x].access.w && !opens[x].deny.r
  }

  /** A stateid that has been issued and is in no live table. */
  ghost predicate Gone(s: State, x: Other) {
    0 < x <= s.next && x !in s.opens && x !in s.locks && x !in s.delegs
  }

  /** Issued ids are live in one table only; tombstones and closed ids are retired for good. */
  ghost predicate IdsOk(s: State) {
    && (forall x :: x in s.opens ==> 0 < x <= s.next && x !in s.locks && x !in s.delegs)
    && (forall x :: x in s.locks ==> 0 < x <= s.next && x !in s.delegs)
    && (forall x :: x in s.delegs ==> 0 < x <= s.next)
    && (forall x :: x in s.opens ==> s.opens[x].owner.kind == OpenOwner)
    && (forall x :: x in s.locks ==> s.locks[x].owner.kind == LockOwner)
    && (forall x :: x in s.expired ==> 0 < x <= s.next && x !in s.opens && x !in s.locks && x !in s.delegs)
    && (forall x :: x in s.revoked ==> 0 < x <= s.next && x !in s.opens && x !in s.locks && x !in s.delegs)
  }

  /** At most one closed stateid is kept per open-owner. */
  ghost predicate ClosedOk(s: State) {
    && (forall x :: x in s.closed ==> s.closed[x].kind == OpenOwner && Gone(s, x))
    && (forall x, y :: x in s.closed && y in s.closed && x != y ==> s.closed[x] != s.closed[y])
  }

  ghost predicate StateOk(s: State) {
    SharesOk(s.opens) && LocksBacked(s.opens, s.locks) && LocksExclusive(s.locks) && IdsOk(s) && ClosedOk(s)
  }

  /** What holds of the tables whatever happens. */
  ghost predicate Tidy(s: State) { LocksStand(s.opens, s.locks) && IdsOk(s) && ClosedOk(s) }

  /** Client records: at most one confirmed record per owner string, and the index knows it. */
  ghost predicate ClientsOk(cl: Clients) {
    && cl.confirmed <= cl.all.Keys && cl.unconfirmed <= cl.all.Keys && cl.confirmed !! cl.unconfirmed
    && (forall c :: c in cl.all ==> c <= cl.next)
    && (forall k :: k in cl.byOwner ==> cl.byOwner[k] in cl.confirmed && cl.all[cl.byOwner[k]].ownerId == k)
    && (forall c :: c in cl.confirmed ==> cl.all[c].ownerId in cl.byOwner && cl.byOwner[cl.all[c].ownerId] == c)
  }

  ghost predicate Safe(t: Tables) { StateOk(t.s) && ClientsOk(t.cl) }

  // ---------- ranges ----------

  lemma UnlockedNotHeld(rs: seq<LockRange>, b: nat, i: nat)
    requires i < |rs| && rs[i].Covers(b)
    ensures ModeAt(rs, b) != Unlocked
    ensures rs[i].write ==> ModeAt(rs, b) == WriteLocked
  {
    assert Held(rs, b, rs[i].write);
  }

  /** The table's overlap test is the pointwise one. */
  lemma ConflictIsPointwise(held: seq<LockRange>, r: LockRange)
    requires Canonical(held) && r.Wf()
    ensures RangesConflict(held, r) <==>
      exists b: nat :: r.Covers(b) && if r.write then ModeAt(held, b) != Unlocked else ModeAt(held, b) == WriteLocked
  {
    if RangesConflict(held, r) {
      var i :| 0 <= i < |held| && Overlap(held[i], r) && (held[i].write || r.write);
      var b: nat :| held[i].Covers(b) && r.Covers(b);
      UnlockedNotHeld(held, b, i);
    }
    if b: nat :| r.Covers(b) && if r.write then ModeAt(held, b) != Unlocked else ModeAt(held, b) == WriteLocked {
      var w := Held(held, b, true);
      var i :| 0 <= i < |held| && held[i].Covers(b) && held[i].write == w;
      assert Overlap(held[i], r);
    }
  }

  /** Granting `r` past the conflict test keeps two lists exclusive, both ways round. */
  lemma UpdateExcludes(mine: seq<LockRange>, r: LockRange, theirs: seq<LockRange>, updated: seq<LockRange>)
    requires Canonical(theirs) && r.Wf() && !RangesConflict(theirs, r)
    requires Excludes(mine, theirs) && Excludes(theirs, mine)
    requires forall b: nat :: r.Covers(b) ==> ModeAt(updated, b) == if r.write then WriteLocked else ReadLocked
    requires forall b: nat :: !r.Covers(b) ==> ModeAt(updated, b) == ModeAt(mine, b)
    ensures Excludes(updated, theirs) && Excludes(theirs, updated)
  {
    ConflictIsPointwise(theirs, r);
    forall b: nat ensures ModeAt(updated, b) == WriteLocked ==> ModeAt(theirs, b) == Unlocked {
      if !r.Covers(b) { assert ModeAt(updated, b) == ModeAt(mine, b); }
    }
    forall b: nat ensures ModeAt(theirs, b) == WriteLocked ==> ModeAt(updated, b) == Unlocked {
      if !r.Covers(b) { assert ModeAt(updated, b) == ModeAt(mine, b); }
    }
  }

  lemma SingleRange(r: LockRange)
    requires r.Wf()
    ensures Canonical([r])
    ensures forall b: nat ::
      ModeAt([r], b) == if !r.Covers(b) then Unlocked else if r.write then WriteLocked else ReadLocked
  {
    HeldAppend([], r);
    assert [] + [r] == [r];
  }

  /** A range list whose every held byte is allowed has only allowed ranges. */
  lemma AllowedPointwise(rs: seq<LockRange>, access: Bits)
    requires Canonical(rs)
    ensures !RangesExceed(rs, access) <==>
      forall b: nat, w :: Held(rs, b, w) ==> access.Allows(w)
  {
    if forall b: nat, w :: Held(rs, b, w) ==> access.Allows(w) {
      forall i | 0 <= i < |rs| ensures access.Allows(rs[i].write) {
        assert rs[i].Covers(rs[i].start);
        assert Held(rs, rs[i].start, rs[i].write);
      }
    }
  }

  lemma HeldIsMode(rs: seq<LockRange>, b: nat, w: bool)
    requires Canonical(rs)
    ensures Held(rs, b, w) <==> ModeAt(rs, b) == if w then WriteLocked else ReadLocked
  {
    CanonicalIsDisjoint(rs);
    DisjointIsFunctional(rs, b);
  }

  lemma UpdateAllowed(held: seq<LockRange>, r: LockRange, access: Bits)
    requires Canonical(held) && r.Wf() && !RangesExceed(held, access) && access.Allows(r.write)
    ensures !RangesExceed(Updated(held, r), access)
  {
    var out := Updated(held, r);
    AllowedPointwise(held, access);
    AllowedPointwise(out, access);
    forall b: nat, w | Held(out, b, w) ensures access.Allows(w) {
      HeldIsMode(out, b, w);
      HeldIsMode(held, b, w);
    }
  }

  lemma EraseAllowed(held: seq<LockRange>, r: LockRange, access: Bits)
    requires Canonical(held) && r.Wf() && !RangesExceed(held, access)
    ensures !RangesExceed(Erased(held, r), access)
  {
    var out := Erased(held, r);
    AllowedPointwise(held, access);
    AllowedPointwise(out, access);
    forall b: nat, w | Held(out, b, w) ensures access.Allows(w) {
      HeldIsMode(out, b, w);
      HeldIsMode(held, b, w);
    }
  }

  // ---------- clients ----------

  lemma TouchSafe(t: Tables, c: ClientId)
    ensures Touch(t, c).s == t.s && ClientsOk(t.cl) ==> ClientsOk(Touch(t, c).cl)
    ensures Touch(t, c).now == t.now && Touch(t, c).s == t.s
  {}

  lemma TouchOwnerSafe(t: Tables, x: Other)
    ensures ClientsOk(t.cl) ==> ClientsOk(TouchOwner(t, x).cl)
    ensures TouchOwner(t, x).now == t.now && TouchOwner(t, x).s == t.s
  {}

  lemma SetClientIdSafe(t: Tables, ownerId: string, principal: string)
    requires ClientsOk(t.cl)
    ensures ClientsOk(SetClientId(t, ownerId, principal).0.cl)
  {}

  lemma WithoutClientsSafe(cl: Clients, dead: set<ClientId>)
    requires ClientsOk(cl)
    ensures ClientsOk(WithoutClients(cl, dead))
  {}

  lemma ConfirmedSafe(cl: Clients, id: ClientId)
    requires ClientsOk(cl) && id in cl.unconfirmed
    ensures var owner := cl.all[id].ownerId;
            var kept := if owner in cl.byOwner then WithoutClients(cl, {cl.byOwner[owner]}) else cl;
            ClientsOk(Confirmed(kept, id, owner))
  {
    var owner := cl.all[id].ownerId;
    if owner in cl.byOwner { WithoutClientsSafe(cl, {cl.byOwner[owner]}); }
  }

  lemma ConfirmClientSafe(t: Tables, id: ClientId, verifierOk: bool)
    requires Safe(t)
    ensures Safe(ConfirmClient(t, id, verifierOk).0)
  {
    if id in t.cl.unconfirmed && verifierOk {
      var owner := t.cl.all[id].ownerId;
      ConfirmedSafe(t.cl, id);
      if owner in t.cl.byOwner { WithoutStateSafe(t.s, {t.cl.byOwner[owner]}); }
      var t1 := if owner in t.cl.byOwner then Release(t, {t.cl.byOwner[owner]}) else t;
      TouchSafe(t1.(cl := Confirmed(t1.cl, id, owner)), id);
    }
    TouchSafe(t, id);
  }

  // ---------- shrinking the tables ----------

  ghost predicate SubMap<K, V>(small: map<K, V>, big: map<K, V>) {
    forall k :: k in small ==> k in big && small[k] == big[k]
  }

  lemma FewerShares(small: map<Other, Open>, big: map<Other, Open>)
    requires SubMap(small, big) && SharesOk(big)
    ensures SharesOk(small)
  {}

  lemma FewerLocks(small: map<Other, Lock>, big: map<Other, Lock>)
    requires SubMap(small, big) && LocksExclusive(big)
    ensures LocksExclusive(small)
  {}

  lemma FewerBacked(opens: map<Other, Open>, locks: map<Other, Lock>,
                    opens': map<Other, Open>, locks': map<Other, Lock>)
    requires LocksBacked(opens, locks) && SubMap(opens', opens) && SubMap(locks', locks)
    requires forall l :: l in locks' ==> locks'[l].open in opens'
    ensures LocksBacked(opens', locks')
  {}

  lemma StateOkParts(s: State)
    requires SharesOk(s.opens) && LocksBacked(s.opens, s.locks) && LocksExclusive(s.locks) && IdsOk(s) && ClosedOk(s)
    ensures StateOk(s)
  {}

  lemma BackedClients(opens: map<Other, Open>, locks: map<Other, Lock>)
    requires LocksBacked(opens, locks)
    ensures forall l :: l in locks ==> locks[l].open in opens && locks[l].client == opens[locks[l].open].owner.client
  {}

  lemma WithoutStateIds(s: State, dead: set<ClientId>)
    requires IdsOk(s) && ClosedOk(s)
    ensures IdsOk(WithoutStateOf(s, dead)) && ClosedOk(WithoutStateOf(s, dead))
  {}

  lemma WithoutStateSafe(s: State, dead: set<ClientId>)
    requires StateOk(s)
    ensures StateOk(WithoutStateOf(s, dead))
  {
    var s' := WithoutStateOf(s, dead);
    WithoutStateIds(s, dead);
    BackedClients(s.opens, s.locks);
    FewerShares(s'.opens, s.opens);
    FewerLocks(s'.locks, s.locks);
    FewerBacked(s.opens, s.locks, s'.opens, s'.locks);
  }

  lemma WithoutOpenIds(s: State, x: Other)
    requires IdsOk(s) && x in s.opens
    ensures IdsOk(WithoutOpen(s, x))
  {}

  lemma WithoutOpenClosed(s: State, x: Other)
    requires ClosedOk(s) && x in s.opens && s.opens[x].owner.kind == OpenOwner
    requires 0 < x <= s.next && x !in s.locks && x !in s.delegs
    ensures ClosedOk(WithoutOpen(s, x))
  {
    var s' := WithoutOpen(s, x);
    forall y | y in s'.closed ensures s'.closed[y].kind == OpenOwner && Gone(s', y) {
      if y != x { assert Gone(s, y); }
    }
  }

  lemma WithoutOpenShrinks(s: State, x: Other)
    requires x in s.opens && forall l :: l in s.locks ==> s.locks[l].open in s.opens
    ensures var s' := WithoutOpen(s, x);
            && SubMap(s'.opens, s.opens) && SubMap(s'.locks, s.locks)
            && forall l :: l in s'.locks ==> s'.locks[l].open in s'.opens
  {}

  lemma WithoutOpenSafe(s: State, x: Other)
    requires StateOk(s) && x in s.opens
    ensures StateOk(WithoutOpen(s, x))
  {
    var s' := WithoutOpen(s, x);
    WithoutOpenIds(s, x);
    WithoutOpenClosed(s, x);
    WithoutOpenShrinks(s, x);
    FewerShares(s'.opens, s.opens);
    FewerLocks(s'.locks, s.locks);
    FewerBacked(s.opens, s.locks, s'.opens, s'.locks);
    StateOkParts(s');
  }

  lemma WithoutLocksSafe(s: State, lo: Owner)
    requires StateOk(s)
    ensures StateOk(WithoutLocksOf(s, lo))
  {
    var s' := WithoutLocksOf(s, lo);
    WithoutLocksIds(s, lo);
    BackedClients(s.opens, s.locks);
    FewerLocks(s'.locks, s.locks);
    FewerBacked(s.opens, s.locks, s'.opens, s'.locks);
  }

  lemma WithoutLocksIds(s: State, lo: Owner)
    requires IdsOk(s) && ClosedOk(s)
    ensures IdsOk(WithoutLocksOf(s, lo)) && ClosedOk(WithoutLocksOf(s, lo))
  {}

  // ---------- opens ----------

  lemma SetOpenShares(opens: map<Other, Open>, x: Other, o: Open)
    requires SharesOk(opens)
    requires forall y :: y in opens && y != x && opens[y].path == o.path ==>
      opens[y].owner != o.owner && !Clash(o.access, o.deny, opens[y])
    ensures SharesOk(opens[x := o])
  {}

  lemma SetOpenBacked(opens: map<Other, Open>, locks: map<Other, Lock>, x: Other, o: Open)
    requires LocksBacked(opens, locks)
    requires x in opens ==> o.path == opens[x].path && o.owner == opens[x].owner
    requires forall l :: l in locks && locks[l].open == x ==> !RangesExceed(locks[l].ranges, o.access)
    ensures LocksBacked(opens[x := o], locks)
  {}

  lemma WithSharesSafe(s: State, x: Other, access: Bits, deny: Bits)
    requires StateOk(s) && x in s.opens
    requires forall y ::
      y in s.opens && y != x && s.opens[y].path == s.opens[x].path ==> !Clash(access, deny, s.opens[y])
    requires forall l :: l in s.locks && s.locks[l].open == x ==> !RangesExceed(s.locks[l].ranges, access)
    ensures StateOk(WithShares(s, x, access, deny))
  {
    var o := WithShares(s, x, access, deny).opens[x];
    SetOpenShares(s.opens, x, o);
    SetOpenBacked(s.opens, s.locks, x, o);
    SetOpenIds(s, x, o);
  }

  lemma SetOpenIds(s: State, x: Other, o: Open)
    requires IdsOk(s) && ClosedOk(s) && x in s.opens && o.owner == s.opens[x].owner
    ensures IdsOk(s.(opens := s.opens[x := o])) && ClosedOk(s.(opens := s.opens[x := o]))
  {}

  lemma NewOpenIds(s: State, o: Owner, q: Pending)
    requires IdsOk(s) && ClosedOk(s) && o.kind == OpenOwner
    ensures IdsOk(WithOpen(s, o, q)) && ClosedOk(WithOpen(s, o, q))
  {}

  lemma NewOpenBacked(s: State, o: Owner, q: Pending)
    requires IdsOk(s) && LocksBacked(s.opens, s.locks)
    ensures LocksBacked(WithOpen(s, o, q).opens, s.locks)
  {}

  /** No lock on the open that the commit will change needs more than it will be given. */
  ghost predicate KeepsBacking(s: State, o: Owner, q: Pending) {
    forall x :: IsOpenOf(s, q.path, o, x) ==> !LocksBlockDowngrade(s, x, q.unionAccess)
  }

  lemma PlaceOpenSafe(s: State, o: Owner, q: Pending, pick: Other)
    requires StateOk(s) && o.kind == OpenOwner
    requires !ShareConflict(s, q.path, o, q.unionAccess, q.unionDeny) && KeepsBacking(s, o, q)
    ensures StateOk(PlaceOpen(s, o, q, pick))
  {
    var found := FindOpen(s, q.path, o, pick);
    if found.None? {
      forall x | x in s.opens && s.opens[x].path == q.path ensures s.opens[x].owner != o {
        assert !IsOpenOf(s, q.path, o, x);
      }
      SetOpenShares(s.opens, s.next + 1, WithOpen(s, o, q).opens[s.next + 1]);
      NewOpenIds(s, o, q);
      NewOpenBacked(s, o, q);
    } else {
      var x := found.value;
      assert !LocksBlockDowngrade(s, x, q.unionAccess);
      WithSharesSafe(s, x, q.unionAccess, q.unionDeny);
    }
  }

  lemma WiderAccess(opens: map<Other, Open>, locks: map<Other, Lock>, x: Other, access: Bits)
    requires LocksBacked(opens, locks) && x in opens && opens[x].access.Within(access)
    ensures forall l :: l in locks && locks[l].open == x ==> !RangesExceed(locks[l].ranges, access)
  {}

  lemma GrantSafe(s: State, c: ClientId, p: Path)
    requires StateOk(s)
    ensures StateOk(WithDeleg(s, c, p))
  {
    GrantIds(s, c, p);
  }

  lemma GrantIds(s: State, c: ClientId, p: Path)
    requires IdsOk(s) && ClosedOk(s)
    ensures IdsOk(WithDeleg(s, c, p)) && ClosedOk(WithDeleg(s, c, p))
  {}

  lemma OpenCommitSafe(t: Tables, o: Owner, q: Pending, delegations: bool, pick: Other)
    requires Safe(t) && o.kind == OpenOwner && (OpenStatus(t.s, o, q) == Ok ==> KeepsBacking(t.s, o, q))
    ensures Safe(OpenCommit(t, o, q, delegations, pick).0)
  {
    if OpenStatus(t.s, o, q) == Ok {
      PlaceOpenSafe(t.s, o, q, pick);
      var s1 := PlaceOpen(t.s, o, q, pick);
      GrantSafe(s1, o.client, q.path);
      var s2 := if delegations then Grant(t.cl, s1, q.path, o, q.unionAccess) else s1;
      TouchSafe(t.(s := s2), o.client);
    }
  }

  /**
   A commit keeps everything exactly when no lock on the owner's open of the path needs
   more than the access that the check settled on.
   */
  lemma CommitSafeIff(t: Tables, o: Owner, q: Pending, delegations: bool, pick: Other)
    requires Safe(t) && o.kind == OpenOwner && OpenStatus(t.s, o, q) == Ok
    ensures Safe(OpenCommit(t, o, q, delegations, pick).0) <==> KeepsBacking(t.s, o, q)
    ensures var s' := OpenCommit(t, o, q, delegations, pick).0.s;
            LocksBacked(s'.opens, s'.locks) <==> KeepsBacking(t.s, o, q)
  {
    if KeepsBacking(t.s, o, q) {
      OpenCommitSafe(t, o, q, delegations, pick);
    } else {
      var x :| IsOpenOf(t.s, q.path, o, x) && LocksBlockDowngrade(t.s, x, q.unionAccess);
      CommitUnbacks(t, o, q, delegations, x, pick);
    }
  }

  lemma CommitUnbacks(t: Tables, o: Owner, q: Pending, delegations: bool, x: Other, pick: Other)
    requires SharesOk(t.s.opens) && OpenStatus(t.s, o, q) == Ok
    requires IsOpenOf(t.s, q.path, o, x) && LocksBlockDowngrade(t.s, x, q.unionAccess)
    ensures var s' := OpenCommit(t, o, q, delegations, pick).0.s; !LocksBacked(s'.opens, s'.locks)
  {
    assert FindOpen(t.s, q.path, o, pick) == Some(x);
    var l :| l in t.s.locks && t.s.locks[l].open == x && RangesExceed(t.s.locks[l].ranges, q.unionAccess);
    var s1 := PlaceOpen(t.s, o, q, pick);
    assert s1.opens[x].access == q.unionAccess && s1.locks == t.s.locks;
    assert !BackedBy(s1.locks[l], s1.opens[x]);
  }

  lemma OpenDowngradeSafe(t: Tables, x: Other, seqid: nat, p: Path, access: Bits, deny: Bits)
    requires Safe(t)
    ensures Safe(OpenDowngrade(t, x, seqid, p, access, deny).0)
  {
    TouchOwnerSafe(t, x);
    if DowngradeStatus(t.s, x, seqid, p, access, deny) == Ok {
      NarrowerShares(t.s.opens, x, access, deny);
      WithSharesSafe(t.s, x, access, deny);
    }
  }

  lemma NarrowerShares(opens: map<Other, Open>, x: Other, access: Bits, deny: Bits)
    requires SharesOk(opens) && x in opens && access.Within(opens[x].access) && deny.Within(opens[x].deny)
    ensures forall y :: y in opens && y != x && opens[y].path == opens[x].path ==> !Clash(access, deny, opens[y])
  {}

  lemma CloseSafe(t: Tables, x: Other, seqid: nat, p: Path)
    requires Safe(t)
    ensures Safe(Close(t, x, seqid, p).0)
  {
    TouchOwnerSafe(t, x);
    if CloseStatus(t.s, x, seqid, p) == Ok { WithoutOpenSafe(t.s, x); }
  }

  lemma OpenConfirmSafe(t: Tables, x: Other, seqid: nat, p: Path)
    requires Safe(t)
    ensures Safe(OpenConfirm(t, x, seqid, p).0)
  {
    TouchOwnerSafe(t, x);
    if ConfirmStatus(t.s, x, seqid, p) == Ok { OkOwnersSafe(t.s, t.s.okOwners + {t.s.opens[x].owner}); }
  }

  lemma OkOwnersSafe(s: State, ok: set<Owner>)
    requires StateOk(s)
    ensures StateOk(s.(okOwners := ok))
  {
    var s' := s.(okOwners := ok);
    assert IdsOk(s') && ClosedOk(s');
  }

  // ---------- locks ----------

  lemma SetLockExclusive(locks: map<Other, Lock>, l: Other, held: Lock)
    requires LocksExclusive(locks)
    requires forall m :: m in locks && m != l && locks[m].path == held.path ==>
      locks[m].owner != held.owner && Excludes(held.ranges, locks[m].ranges) && Excludes(locks[m].ranges, held.ranges)
    ensures LocksExclusive(locks[l := held])
  {}

  lemma SetLockBacked(opens: map<Other, Open>, locks: map<Other, Lock>, l: Other, held: Lock)
    requires LocksBacked(opens, locks) && held.open in opens && BackedBy(held, opens[held.open])
    ensures LocksBacked(opens, locks[l := held])
  {}

  lemma SetLockIds(s: State, l: Other, held: Lock)
    requires IdsOk(s) && ClosedOk(s) && l in s.locks && held.owner == s.locks[l].owner
    ensures IdsOk(s.(locks := s.locks[l := held])) && ClosedOk(s.(locks := s.locks[l := held]))
  {}

  lemma NewLockIds(s: State, lo: Owner, x: Other, p: Path, r: LockRange)
    requires IdsOk(s) && ClosedOk(s) && lo.kind == LockOwner
    ensures IdsOk(WithLock(s, lo, x, p, r)) && ClosedOk(WithLock(s, lo, x, p, r))
  {}

  lemma BackedCanonical(opens: map<Other, Open>, locks: map<Other, Lock>)
    requires LocksBacked(opens, locks)
    ensures forall l :: l in locks ==> Canonical(locks[l].ranges)
  {}

  /** A granted range on a fresh lock state conflicts with no other owner's lock. */
  lemma NewLockExcludes(s: State, lo: Owner, p: Path, r: LockRange, m: Other)
    requires LocksBacked(s.opens, s.locks) && r.Wf()
    requires !LockConflict(s, p, lo, r) && !IsLockOf(s, p, lo, m)
    requires m in s.locks && s.locks[m].path == p
    ensures s.locks[m].owner != lo && Excludes([r], s.locks[m].ranges) && Excludes(s.locks[m].ranges, [r])
  {
    SingleRange(r);
    UpdateExcludes([], r, s.locks[m].ranges, [r]);
  }

  lemma WithLockExclusive(s: State, lo: Owner, x: Other, p: Path, r: LockRange)
    requires LocksExclusive(s.locks) && LocksBacked(s.opens, s.locks) && r.Wf()
    requires !LockConflict(s, p, lo, r) && forall m :: !IsLockOf(s, p, lo, m)
    ensures LocksExclusive(WithLock(s, lo, x, p, r).locks)
  {
    forall m | m in s.locks && m != s.next + 1 && s.locks[m].path == p
      ensures s.locks[m].owner != lo && Excludes([r], s.locks[m].ranges) && Excludes(s.locks[m].ranges, [r])
    {
      NewLockExcludes(s, lo, p, r, m);
    }
    SetLockExclusive(s.locks, s.next + 1, Lock(1, lo.client, lo, x, p, [r]));
  }

  lemma SingleBacked(lo: Owner, x: Other, r: LockRange, o: Open)
    requires r.Wf() && o.owner.client == lo.client && o.access.Allows(r.write)
    ensures BackedBy(Lock(1, lo.client, lo, x, o.path, [r]), o)
  {
    SingleRange(r);
  }

  lemma WithLockSafe(s: State, x: Other, seqid: nat, lo: Owner, p: Path, r: LockRange)
    requires StateOk(s) && r.Wf() && lo.kind == LockOwner && LockNewStatus(s, x, seqid, lo, p, r) == Ok
    ensures StateOk(WithLock(s, lo, x, p, r))
  {
    NewLockIds(s, lo, x, p, r);
    SingleBacked(lo, x, r, s.opens[x]);
    SetLockBacked(s.opens, s.locks, s.next + 1, Lock(1, lo.client, lo, x, p, [r]));
    WithLockExclusive(s, lo, x, p, r);
    StateOkParts(WithLock(s, lo, x, p, r));
  }

  lemma LockNewSafe(t: Tables, x: Other, seqid: nat, lo: Owner, p: Path, r: LockRange)
    requires Safe(t) && r.Wf() && lo.kind == LockOwner
    ensures Safe(LockNew(t, x, seqid, lo, p, r).0)
  {
    if x !in t.s.expired && x in t.s.opens {
      var t1 := Touch(t, t.s.opens[x].owner.client);
      TouchSafe(t, t.s.opens[x].owner.client);
      TouchSafe(t1, lo.client);
      if LockNewStatus(t.s, x, seqid, lo, p, r) == Ok { WithLockSafe(t.s, x, seqid, lo, p, r); }
    }
  }

  /** New ranges for one lock state are safe when no other owner's ranges forbid them. */
  lemma WithRangesSafe(s: State, l: Other, ranges: seq<LockRange>)
    requires StateOk(s) && l in s.locks
    requires Canonical(ranges) && !RangesExceed(ranges, s.opens[s.locks[l].open].access)
    requires forall m :: m in s.locks && m != l && s.locks[m].path == s.locks[l].path ==>
      Excludes(ranges, s.locks[m].ranges) && Excludes(s.locks[m].ranges, ranges)
    ensures StateOk(WithRanges(s, l, ranges))
  {
    var held := WithRanges(s, l, ranges).locks[l];
    SetLockIds(s, l, held);
    SetLockBacked(s.opens, s.locks, l, held);
    SetLockExclusive(s.locks, l, held);
  }

  lemma ExclusivePair(locks: map<Other, Lock>, l: Other, m: Other)
    requires LocksExclusive(locks) && l in locks && m in locks && l != m && locks[l].path == locks[m].path
    ensures locks[l].owner != locks[m].owner
    ensures Excludes(locks[l].ranges, locks[m].ranges) && Excludes(locks[m].ranges, locks[l].ranges)
  {}

  lemma UpdatedExcludes(s: State, l: Other, r: LockRange, m: Other)
    requires LocksExclusive(s.locks) && LocksBacked(s.opens, s.locks) && r.Wf()
    requires l in s.locks && m in s.locks && l != m && s.locks[l].path == s.locks[m].path
    requires !LockConflict(s, s.locks[l].path, s.locks[l].owner, r)
    ensures Excludes(Updated(s.locks[l].ranges, r), s.locks[m].ranges)
    ensures Excludes(s.locks[m].ranges, Updated(s.locks[l].ranges, r))
  {
    ExclusivePair(s.locks, l, m);
    UpdateExcludes(s.locks[l].ranges, r, s.locks[m].ranges, Updated(s.locks[l].ranges, r));
  }

  lemma ErasedExcludes(s: State, l: Other, r: LockRange, m: Other)
    requires LocksExclusive(s.locks) && r.Wf()
    requires l in s.locks && m in s.locks && l != m && s.locks[l].path == s.locks[m].path
    requires Canonical(s.locks[l].ranges)
    ensures Excludes(Erased(s.locks[l].ranges, r), s.locks[m].ranges)
    ensures Excludes(s.locks[m].ranges, Erased(s.locks[l].ranges, r))
  {
    ExclusivePair(s.locks, l, m);
  }

  lemma LockMoreSafe(t: Tables, l: Other, seqid: nat, p: Path, r: LockRange)
    requires Safe(t) && r.Wf()
    ensures AllCanonical(t.s) && Safe(LockMore(t, l, seqid, p, r).0)
  {
    BackedCanonical(t.s.opens, t.s.locks);
    TouchOwnerSafe(t, l);
    if LockMoreStatus(t.s, l, seqid, p, r) == Ok {
      var held := t.s.locks[l];
      UpdateAllowed(held.ranges, r, t.s.opens[held.open].access);
      forall m | m in t.s.locks && m != l && t.s.locks[m].path == held.path
        ensures Excludes(Updated(held.ranges, r), t.s.locks[m].ranges)
        ensures Excludes(t.s.locks[m].ranges, Updated(held.ranges, r))
      {
        UpdatedExcludes(t.s, l, r, m);
      }
      WithRangesSafe(t.s, l, Updated(held.ranges, r));
    }
  }

  lemma LockUSafe(t: Tables, l: Other, seqid: nat, p: Path, r: LockRange)
    requires Safe(t) && r.Wf()
    ensures AllCanonical(t.s) && Safe(LockU(t, l, seqid, p, r).0)
  {
    BackedCanonical(t.s.opens, t.s.locks);
    TouchOwnerSafe(t, l);
    if LockUStatus(t.s, l, seqid, p) == Ok {
      var held := t.s.locks[l];
      EraseAllowed(held.ranges, r, t.s.opens[held.open].access);
      forall m | m in t.s.locks && m != l && t.s.locks[m].path == held.path
        ensures Excludes(Erased(held.ranges, r), t.s.locks[m].ranges)
        ensures Excludes(t.s.locks[m].ranges, Erased(held.ranges, r))
      {
        ErasedExcludes(t.s, l, r, m);
      }
      WithRangesSafe(t.s, l, Erased(held.ranges, r));
    }
  }

  lemma ReleaseLockOwnerSafe(t: Tables, lo: Owner)
    requires Safe(t)
    ensures Safe(ReleaseLockOwner(t, lo).0)
  {
    TouchSafe(t, lo.client);
    WithoutLocksSafe(t.s, lo);
  }

  // ---------- delegations, rename, sweep ----------

  /** Steps that change delegations and tombstones only. */
  lemma DelegsOnlySafe(s: State, s': State)
    requires StateOk(s) && s'.opens == s.opens && s'.locks == s.locks && IdsOk(s') && ClosedOk(s')
    ensures StateOk(s')
  {}

  lemma DropDelegIds(s: State, ds: set<Other>)
    requires IdsOk(s) && ClosedOk(s)
    ensures IdsOk(s.(delegs := s.delegs - ds)) && ClosedOk(s.(delegs := s.delegs - ds))
  {}

  lemma DelegReturnSafe(t: Tables, x: Other, seqid: nat, p: Path)
    requires Safe(t)
    ensures Safe(DelegReturn(t, x, seqid, p).0)
  {
    if ResolveDeleg(t.s, x, seqid, p) == Ok {
      var s' := t.s.(delegs := t.s.delegs - {x});
      DropDelegIds(t.s, {x});
      DelegsOnlySafe(t.s, s');
      TouchSafe(t.(s := s'), t.s.delegs[x].client);
    }
  }

  lemma RevokeIds(s: State, ds: set<Other>, now: nat)
    requires IdsOk(s) && ClosedOk(s) && ds <= s.delegs.Keys
    ensures IdsOk(Revoke(s, ds, now)) && ClosedOk(Revoke(s, ds, now))
  {}

  lemma MarkIds(s: State, ds: set<Other>, now: nat)
    requires IdsOk(s) && ClosedOk(s)
    ensures IdsOk(MarkRecalling(s, ds, now)) && ClosedOk(MarkRecalling(s, ds, now))
  {}

  lemma RecallSafe(t: Tables, p: Path, except: Option<ClientId>)
    requires Safe(t)
    ensures Safe(Recall(t, p, except).0)
  {
    var gone := ForfeitOf(t.s, Disturbed(t.s, p, except), t.now, t.recallWait);
    var s1 := Revoke(t.s, gone, t.now);
    RevokeIds(t.s, gone, t.now);
    MarkIds(s1, RecallJobs(t.s, p, except), t.now);
    DelegsOnlySafe(t.s, Recall(t, p, except).0.s);
  }

  /** Moved along, `p` lands on `q`, which itself stays. */
  predicate LandsOn(from: Path, to: Path, p: Path, q: Path) {
    Under(from, p) && !Under(from, q) && Moved(from, to, p) == q
  }

  predicate Together(from: Path, to: Path, p: Path, q: Path) {
    p == q || LandsOn(from, to, p, q) || LandsOn(from, to, q, p)
  }

  /** Renaming sends two paths to one only where a moved one lands on one that stays. */
  lemma MovedTogetherIff(from: Path, to: Path, p: Path, q: Path)
    ensures Moved(from, to, p) == Moved(from, to, q) <==> Together(from, to, p, q)
  {
    MovedUnder(from, to, p);
    MovedUnder(from, to, q);
    if Under(from, p) && Under(from, q) && Moved(from, to, p) == Moved(from, to, q) {
      var m := Moved(from, to, p);
      assert p == from + m[|to|..] by { MovedSuffix(from, to, p); }
      assert q == from + m[|to|..] by { MovedSuffix(from, to, q); }
    }
  }

  lemma MovedSuffix(from: Path, to: Path, p: Path)
    requires Under(from, p)
    ensures |Moved(from, to, p)| >= |to| && p == from + Moved(from, to, p)[|to|..]
  {
    if p == from {
      assert Moved(from, to, p)[|to|..] == [];
    } else {
      assert p[..|from|] == from by { assert (from + "/")[..|from|] == from; }
      assert Moved(from, to, p)[|to|..] == p[|from|..];
    }
  }

  lemma MovedUnder(from: Path, to: Path, p: Path)
    ensures Under(from, p) ==> Under(to, Moved(from, to, p))
    ensures !Under(from, p) ==> Moved(from, to, p) == p
  {
    if from + "/" <= p && p != from {
      assert p[|from|] == (from + "/")[|from|] == '/';
      var m := Moved(from, to, p);
      assert m[..|to|+1] == to + "/";
    }
  }

  /** No moved open has the owner of, or clashes with, an open that stays where it lands. */
  ghost predicate OpensApart(opens: map<Other, Open>, from: Path, to: Path) {
    forall x, y | x in opens && y in opens && LandsOn(from, to, opens[x].path, opens[y].path) ::
      opens[x].owner != opens[y].owner && !Clash(opens[x].access, opens[x].deny, opens[y])
  }

  /** The same of locks. */
  ghost predicate LocksApart(locks: map<Other, Lock>, from: Path, to: Path) {
    forall l, m | l in locks && m in locks && LandsOn(from, to, locks[l].path, locks[m].path) ::
      && locks[l].owner != locks[m].owner
      && Excludes(locks[l].ranges, locks[m].ranges) && Excludes(locks[m].ranges, locks[l].ranges)
  }

  ghost predicate MergeOk(s: State, from: Path, to: Path) {
    OpensApart(s.opens, from, to) && LocksApart(s.locks, from, to)
  }

  /** No moved open has the owner of an open that stays where it lands. */
  ghost predicate OwnersApart(opens: map<Other, Open>, from: Path, to: Path) {
    forall x, y | x in opens && y in opens && LandsOn(from, to, opens[x].path, opens[y].path) ::
      opens[x].owner != opens[y].owner
  }

  lemma RenameUnique(opens: map<Other, Open>, from: Path, to: Path)
    requires UniqueOpens(opens)
    ensures UniqueOpens(MovedOpens(opens, from, to)) <==> OwnersApart(opens, from, to)
  {
    var moved := MovedOpens(opens, from, to);
    forall x, y | x in opens && y in opens
      ensures moved[x].path == moved[y].path <==> Together(from, to, opens[x].path, opens[y].path)
    {
      MovedTogetherIff(from, to, opens[x].path, opens[y].path);
    }
    if UniqueOpens(moved) {
      forall x, y | x in opens && y in opens && LandsOn(from, to, opens[x].path, opens[y].path)
        ensures opens[x].owner != opens[y].owner
      {
        assert moved[x].path == moved[y].path && x != y;
      }
    }
  }

  lemma RenameShares(opens: map<Other, Open>, from: Path, to: Path)
    requires SharesOk(opens)
    ensures SharesOk(MovedOpens(opens, from, to)) <==> OpensApart(opens, from, to)
  {
    var moved := MovedOpens(opens, from, to);
    forall x, y | x in opens && y in opens
      ensures moved[x].path == moved[y].path <==> Together(from, to, opens[x].path, opens[y].path)
    {
      MovedTogetherIff(from, to, opens[x].path, opens[y].path);
    }
    if SharesOk(moved) {
      forall x, y | x in opens && y in opens && LandsOn(from, to, opens[x].path, opens[y].path)
        ensures opens[x].owner != opens[y].owner && !Clash(opens[x].access, opens[x].deny, opens[y])
      {
        assert moved[x].path == moved[y].path && x != y;
      }
    }
  }

  lemma RenameLocks(locks: map<Other, Lock>, from: Path, to: Path)
    requires LocksExclusive(locks)
    ensures LocksExclusive(MovedLocks(locks, from, to)) <==> LocksApart(locks, from, to)
  {
    var moved := MovedLocks(locks, from, to);
    forall l, m | l in locks && m in locks
      ensures moved[l].path == moved[m].path <==> Together(from, to, locks[l].path, locks[m].path)
    {
      MovedTogetherIff(from, to, locks[l].path, locks[m].path);
    }
    if LocksExclusive(moved) {
      forall l, m | l in locks && m in locks && LandsOn(from, to, locks[l].path, locks[m].path)
        ensures locks[l].owner != locks[m].owner
        ensures Excludes(locks[l].ranges, locks[m].ranges) && Excludes(locks[m].ranges, locks[l].ranges)
      {
        assert moved[l].path == moved[m].path && l != m;
        ExclusivePair(moved, l, m);
      }
    }
  }

  lemma RenameBacked(opens: map<Other, Open>, locks: map<Other, Lock>, from: Path, to: Path)
    requires LocksBacked(opens, locks)
    ensures LocksBacked(MovedOpens(opens, from, to), MovedLocks(locks, from, to))
  {}

  lemma RenameIds(s: State, from: Path, to: Path)
    requires IdsOk(s) && ClosedOk(s)
    ensures IdsOk(Rename(s, from, to)) && ClosedOk(Rename(s, from, to))
  {}

  /** A rename keeps everything exactly when what it moves gets along with what stays where it lands. */
  lemma RenameSafeIff(s: State, from: Path, to: Path)
    requires StateOk(s)
    ensures StateOk(Rename(s, from, to)) <==> MergeOk(s, from, to)
  {
    RenameShares(s.opens, from, to);
    RenameLocks(s.locks, from, to);
    RenameBacked(s.opens, s.locks, from, to);
    RenameIds(s, from, to);
    if MergeOk(s, from, to) { StateOkParts(Rename(s, from, to)); }
  }

  lemma SweptTombsSafe(s: State, lease: nat, now: nat)
    requires StateOk(s)
    ensures StateOk(SweptTombs(s, lease, now))
  {
    var s' := SweptTombs(s, lease, now);
    assert IdsOk(s') && ClosedOk(s') by { SweptTombsIds(s, lease, now); }
    DelegsOnlySafe(s, s');
  }

  lemma SweptTombsIds(s: State, lease: nat, now: nat)
    requires IdsOk(s) && ClosedOk(s)
    ensures IdsOk(SweptTombs(s, lease, now)) && ClosedOk(SweptTombs(s, lease, now))
  {}

  /** What is tombstoned at lease expiry was live or closed, and is gone afterwards. */
  lemma TombstonesGone(s: State, dead: set<ClientId>, x: Other)
    requires IdsOk(s) && ClosedOk(s) && x in StateidsOf(s, dead)
    requires forall l :: l in s.locks ==> s.locks[l].client == s.locks[l].owner.client
    ensures Gone(WithoutStateOf(s, dead), x)
  {
    if x !in s.opens && x !in s.locks && x !in s.delegs {
      assert Gone(s, x);
    }
  }

  lemma ExpireIds(s: State, dead: set<ClientId>, now: nat)
    requires IdsOk(s) && ClosedOk(s)
    requires forall l :: l in s.locks ==> s.locks[l].client == s.locks[l].owner.client
    ensures var s' := WithoutStateOf(Tombstoned(s, dead, now), dead); IdsOk(s') && ClosedOk(s')
  {
    var kept := WithoutStateOf(s, dead);
    WithoutStateIds(s, dead);
    forall x | x in StateidsOf(s, dead) ensures Gone(kept, x) { TombstonesGone(s, dead, x); }
    MoreTombstones(kept, Stamped(StateidsOf(s, dead), now));
    assert WithoutStateOf(Tombstoned(s, dead, now), dead)
        == kept.(expired := kept.expired + Stamped(StateidsOf(s, dead), now));
  }

  lemma MoreTombstones(s: State, tombs: map<Other, nat>)
    requires IdsOk(s) && ClosedOk(s) && forall x :: x in tombs ==> Gone(s, x)
    ensures IdsOk(s.(expired := s.expired + tombs)) && ClosedOk(s.(expired := s.expired + tombs))
  {}

  lemma SweepSafe(t: Tables)
    requires Safe(t)
    ensures Safe(Sweep(t))
  {
    var s1 := SweptTombs(t.s, t.lease, t.now);
    SweptTombsSafe(t.s, t.lease, t.now);
    var gone := ForfeitOf(s1, s1.delegs.Keys, t.now, t.recallWait);
    var s2 := Revoke(s1, gone, t.now);
    RevokeIds(s1, gone, t.now);
    DelegsOnlySafe(s1, s2);
    var t2 := t.(cl := SweptClients(t.cl, t.lease, t.now), s := s2);
    ExpireSafe(t2, LapsedClients(t2));
  }

  lemma ExpireSafe(t: Tables, dead: set<ClientId>)
    requires StateOk(t.s) && ClientsOk(t.cl)
    ensures Safe(ExpireClients(t, dead))
  {
    WithoutStateSafe(t.s, dead);
    ExpireIds(t.s, dead, t.now);
    DelegsOnlySafe(WithoutStateOf(t.s, dead), ExpireClients(t, dead).s);
    WithoutClientsSafe(t.cl.(expiredIds := t.cl.expiredIds + Stamped(dead, t.now)), dead);
  }
}
