/**
 What a lease promises over runs (nfs4/lease.go; section 9.5 of RFC 7530).

 While its lease holds, nobody else's requests and no sweep take a client's opens and
 locks away; once it has lapsed, a sweep removes them all, and their stateids answer
 EXPIRED for another lease period.
 */
module NfsLeases {
  import opened LockRanges
  import opened NfsTables
  import opened NfsInvariants
  import opened NfsRuns
  import opened NfsKept
  import opened NfsDelegations

  /** The same reservation; a rename may have moved it. */
  ghost predicate SameOpen(a: Open, b: Open) { b == a.(path := b.path) }

  ghost predicate SameLock(a: Lock, b: Lock) { b == a.(path := b.path) }

  /** Client `c` still has every open it had. */
  ghost predicate KeepsOpens(opens: map<Other, Open>, opens': map<Other, Open>, c: ClientId) {
    forall x | x in opens && opens[x].owner.client == c :: x in opens' && SameOpen(opens[x], opens'[x])
  }

  ghost predicate KeepsLocks(locks: map<Other, Lock>, locks': map<Other, Lock>, c: ClientId) {
    forall l | l in locks && locks[l].owner.client == c :: l in locks' && SameLock(locks[l], locks'[l])
  }

  ghost predicate Keeps(s: State, s': State, c: ClientId) {
    KeepsOpens(s.opens, s'.opens, c) && KeepsLocks(s.locks, s'.locks, c)
  }

  /** The client is confirmed and was heard from at `since` or later. */
  ghost predicate HeardFrom(cl: Clients, c: ClientId, since: nat) {
    c in cl.confirmed && c in cl.all && cl.all[c].lastRenew >= since
  }

  /** The step is one of `c`'s own operations on its opens and locks, or replaces the client. */
  ghost predicate Acts(w: World, step: Step, c: ClientId) {
    match step
    case Plain(ReleaseOwner(lo)) => lo.client == c
    case Plain(ConfirmClientId(id, _)) =>
      id in w.t.cl.all && c in w.t.cl.all && id != c && w.t.cl.all[id].ownerId == w.t.cl.all[c].ownerId
    case Sequenced(x, _, _, _) => SeqOwner(w.t.s, x).Some? && SeqOwner(w.t.s, x).value.client == c
    case OpenEnd(o, _, _) => o.client == c
    case _ => false
  }

  // ---------- one step ----------

  lemma KeepsTrans(s: State, s': State, s'': State, c: ClientId)
    requires Keeps(s, s', c) && Keeps(s', s'', c)
    ensures Keeps(s, s'', c)
  {}

  lemma SameKeeps(s: State, s': State, c: ClientId)
    requires s'.opens == s.opens && s'.locks == s.locks
    ensures Keeps(s, s', c)
  {}

  lemma RenameKeeps(s: State, from: Path, to: Path, c: ClientId)
    ensures Keeps(s, Rename(s, from, to), c)
  {}

  lemma RecallForKeeps(w: World, p: Path, except: Option<ClientId>, c: ClientId)
    ensures Keeps(w.t.s, RecallFor(w, p, except).t.s, c)
  {
    SameKeeps(w.t.s, RecallFor(w, p, except).t.s, c);
  }

  lemma ReleaseKeeps(s: State, dead: set<ClientId>, c: ClientId)
    requires c !in dead && forall l | l in s.locks :: s.locks[l].client == s.locks[l].owner.client
    ensures Keeps(s, WithoutStateOf(s, dead), c)
  {}

  lemma LockClients(s: State)
    requires LocksStand(s.opens, s.locks)
    ensures forall l | l in s.locks :: s.locks[l].client == s.locks[l].owner.client
  {}

  lemma SweepKeeps(t: Tables, c: ClientId, since: nat)
    requires Tidy(t.s) && ClientsOk(t.cl) && HeardFrom(t.cl, c, since) && t.now < since + t.lease
    ensures Keeps(t.s, Sweep(t).s, c) && HeardFrom(Sweep(t).cl, c, since)
  {
    LockClients(t.s);
    var s1 := SweptTombs(t.s, t.lease, t.now);
    var s2 := Revoke(s1, ForfeitOf(s1, s1.delegs.Keys, t.now, t.recallWait), t.now);
    var t2 := t.(cl := SweptClients(t.cl, t.lease, t.now), s := s2);
    assert c !in LapsedClients(t2);
    ReleaseKeeps(Tombstoned(s2, LapsedClients(t2), t.now), LapsedClients(t2), c);
  }

  lemma ConfirmKeeps(t: Tables, id: ClientId, ok: bool, c: ClientId, since: nat)
    requires Tidy(t.s) && ClientsOk(t.cl) && HeardFrom(t.cl, c, since) && since <= t.now
    requires id in t.cl.all && id != c ==> t.cl.all[id].ownerId != t.cl.all[c].ownerId
    ensures Keeps(t.s, ConfirmClient(t, id, ok).0.s, c) && HeardFrom(ConfirmClient(t, id, ok).0.cl, c, since)
  {
    LockClients(t.s);
    if id in t.cl.unconfirmed && ok {
      var owner := t.cl.all[id].ownerId;
      if owner in t.cl.byOwner { ReleaseKeeps(t.s, {t.cl.byOwner[owner]}, c); }
    }
  }

  lemma TouchHeard(t: Tables, d: ClientId, c: ClientId, since: nat)
    requires HeardFrom(t.cl, c, since) && since <= t.now
    ensures HeardFrom(Touch(t, d).cl, c, since) && Touch(t, d).now == t.now
  {}

  lemma ReleaseOwnerKeeps(t: Tables, lo: Owner, c: ClientId)
    requires lo.client != c
    ensures Keeps(t.s, ReleaseLockOwner(t, lo).0.s, c)
  {}

  lemma PlainKeeps(t: Tables, op: PlainOp, c: ClientId, since: nat)
    requires Tidy(t.s) && ClientsOk(t.cl) && HeardFrom(t.cl, c, since) && since <= t.now < since + t.lease
    requires op.ReleaseOwner? ==> op.lo.client != c
    requires op.ConfirmClientId? && op.id in t.cl.all && op.id != c ==> t.cl.all[op.id].ownerId != t.cl.all[c].ownerId
    ensures Keeps(t.s, ApplyPlain(t, op).s, c)
  {
    match op {
      case ConfirmClientId(id, ok) => ConfirmKeeps(t, id, ok, c, since);
      case SweepExpired => SweepKeeps(t, c, since);
      case ReleaseOwner(lo) => ReleaseOwnerKeeps(t, lo, c);
      case _ => QuietPlain(t, op, c);
    }
  }

  lemma QuietPlain(t: Tables, op: PlainOp, c: ClientId)
    requires !op.ConfirmClientId? && !op.SweepExpired? && !op.ReleaseOwner?
    ensures Keeps(t.s, ApplyPlain(t, op).s, c)
  {
    SameKeeps(t.s, ApplyPlain(t, op).s, c);
  }

  lemma PlainHeard(t: Tables, op: PlainOp, c: ClientId, since: nat)
    requires Tidy(t.s) && ClientsOk(t.cl) && HeardFrom(t.cl, c, since) && since <= t.now < since + t.lease
    requires op.ConfirmClientId? && op.id in t.cl.all && op.id != c ==> t.cl.all[op.id].ownerId != t.cl.all[c].ownerId
    ensures HeardFrom(ApplyPlain(t, op).cl, c, since) && ApplyPlain(t, op).lease == t.lease
  {
    match op {
      case ConfirmClientId(id, ok) => ConfirmKeeps(t, id, ok, c, since);
      case SweepExpired => SweepKeeps(t, c, since);
      case RenewLease(id) => TouchHeard(t, id, c, since);
      case ReleaseOwner(lo) => TouchHeard(t, lo.client, c, since);
      case ReturnDeleg(x, n, p) => if x in t.s.delegs { TouchHeard(t, t.s.delegs[x].client, c, since); }
      case _ =>
    }
  }

  /** What a sequenced operation does to the client records: it renews, or nothing. */
  lemma SeqRenews(t: Tables, x: Other, n: nat, p: Path, op: SeqOp)
    requires WellFormed(t.s, op)
    ensures var cl := ApplySeq(t, x, n, p, op).cl;
            || cl == TouchOwner(t, x).cl || cl == t.cl
            || (op.LockFirst? && cl == Touch(TouchOwner(t, x), op.lo.client).cl)
    ensures !op.LockFirst? || x in t.s.opens ==> ApplySeq(t, x, n, p, op).cl != t.cl || TouchOwner(t, x).cl == t.cl
  {}

  lemma SeqHeard(t: Tables, x: Other, n: nat, p: Path, op: SeqOp, c: ClientId, since: nat)
    requires WellFormed(t.s, op) && HeardFrom(t.cl, c, since) && since <= t.now
    ensures HeardFrom(ApplySeq(t, x, n, p, op).cl, c, since)
  {
    SeqRenews(t, x, n, p, op);
    match SeqOwner(t.s, x) {
      case Some(o) => TouchHeard(t, o.client, c, since);
      case None =>
    }
    if op.LockFirst? { TouchHeard(TouchOwner(t, x), op.lo.client, c, since); }
  }

  lemma WithoutOpenKeeps(s: State, x: Other, c: ClientId)
    requires LocksStand(s.opens, s.locks) && x in s.opens && s.opens[x].owner.client != c
    ensures Keeps(s, WithoutOpen(s, x), c)
  {}

  /** Replacing another client's row, or adding a new one, keeps `c`'s rows. */
  lemma SetOpenKeeps(opens: map<Other, Open>, x: Other, o: Open, c: ClientId)
    requires x in opens ==> opens[x].owner.client != c
    ensures KeepsOpens(opens, opens[x := o], c)
  {}

  lemma SetLockKeeps(locks: map<Other, Lock>, l: Other, row: Lock, c: ClientId)
    requires l in locks ==> locks[l].owner.client != c
    ensures KeepsLocks(locks, locks[l := row], c)
  {}

  lemma LockedKeeps(s: State, s': State, lo: Owner, x: Other, p: Path, r: LockRange, c: ClientId)
    requires IdsOk(s) && Locked(s, s', lo, x, p, r)
    ensures Keeps(s, s', c)
  {
    SetLockKeeps(s.locks, s.next + 1, s'.locks[s.next + 1], c);
  }

  lemma RangedKeeps(s: State, s': State, x: Other, ranges: seq<LockRange>, c: ClientId)
    requires Ranged(s, s', x, ranges) && s.locks[x].owner.client != c
    ensures Keeps(s, s', c)
  {
    SetLockKeeps(s.locks, x, s'.locks[x], c);
  }

  lemma LockingKeeps(s: State, s': State, x: Other, c: ClientId)
    requires IdsOk(s) && (x in s.locks ==> s.locks[x].owner.client != c)
    requires (exists lo: Owner, p: Path, r: LockRange :: Locked(s, s', lo, x, p, r))
          || (exists ranges: seq<LockRange> :: Ranged(s, s', x, ranges))
    ensures Keeps(s, s', c)
  {
    if lo: Owner, p: Path, r: LockRange :| Locked(s, s', lo, x, p, r) {
      LockedKeeps(s, s', lo, x, p, r, c);
    } else {
      var ranges :| Ranged(s, s', x, ranges);
      RangedKeeps(s, s', x, ranges, c);
    }
  }

  /** The owner a stateid is sequenced by is the owner of its rows. */
  lemma RowsOfOthers(s: State, x: Other, c: ClientId)
    requires IdsOk(s) && (SeqOwner(s, x).Some? ==> SeqOwner(s, x).value.client != c)
    ensures x in s.opens ==> s.opens[x].owner.client != c
    ensures x in s.locks ==> s.locks[x].owner.client != c
  {}

  lemma NarrowedKeeps(s: State, s': State, x: Other, access: Bits, deny: Bits, c: ClientId)
    requires Narrowed(s, s', x, access, deny)
    requires x in s.opens && s.opens[x].owner.client != c
    ensures Keeps(s, s', c)
  {
    SetOpenKeeps(s.opens, x, s'.opens[x], c);
  }

  lemma EffectKeeps(t: Tables, t': Tables, x: Other, c: ClientId)
    requires LocksStand(t.s.opens, t.s.locks) && IdsOk(t.s) && SeqEffect(t, t', x)
    requires x in t.s.opens ==> t.s.opens[x].owner.client != c
    requires x in t.s.locks ==> t.s.locks[x].owner.client != c
    ensures Keeps(t.s, t'.s, c)
  {
    if t'.s == t.s.(okOwners := t'.s.okOwners) {
      SameKeeps(t.s, t'.s, c);
    } else if x in t.s.opens && t'.s == WithoutOpen(t.s, x) {
      WithoutOpenKeeps(t.s, x, c);
    } else if access: Bits, deny: Bits :| Narrowed(t.s, t'.s, x, access, deny) {
      NarrowedKeeps(t.s, t'.s, x, access, deny, c);
    } else {
      LockingKeeps(t.s, t'.s, x, c);
    }
  }

  lemma PlaceKeeps(s: State, o: Owner, q: Pending, c: ClientId, pick: Other)
    requires IdsOk(s) && o.client != c
    ensures Keeps(s, PlaceOpen(s, o, q, pick), c)
  {
    var s' := PlaceOpen(s, o, q, pick);
    match FindOpen(s, q.path, o, pick) {
      case None => SetOpenKeeps(s.opens, s.next + 1, s'.opens[s.next + 1], c);
      case Some(x) => SetOpenKeeps(s.opens, x, s'.opens[x], c);
    }
  }

  lemma CommitKeeps(t: Tables, o: Owner, q: Pending, ds: bool, c: ClientId, pick: Other)
    requires IdsOk(t.s) && o.client != c
    ensures Keeps(t.s, OpenCommit(t, o, q, ds, pick).0.s, c)
  {
    if OpenStatus(t.s, o, q) == Ok {
      CommitShape(t, o, q, ds, pick);
      PlaceKeeps(t.s, o, q, c, pick);
    }
  }

  lemma StepKeeps(w: World, step: Step, c: ClientId, since: nat)
    requires Tidy(w.t.s) && ClientsOk(w.t.cl) && HeardFrom(w.t.cl, c, since)
    requires since <= w.t.now < since + w.t.lease && !Acts(w, step, c)
    ensures Keeps(w.t.s, Next(w, step).t.s, c)
  {
    if step.Plain? { PlainKeeps(w.t, step.op, c, since); } else { OtherStepKeeps(w, step, c); }
  }

  lemma OtherStepKeeps(w: World, step: Step, c: ClientId)
    requires LocksStand(w.t.s.opens, w.t.s.locks) && IdsOk(w.t.s) && !Acts(w, step, c) && !step.Plain?
    ensures Keeps(w.t.s, Next(w, step).t.s, c)
  {
    if Enabled(w, step) {
      match step {
        case Sequenced(x, n, p, op) =>
          SeqHasEffect(w.t, x, n, p, op);
          RowsOfOthers(w.t.s, x, c);
          EffectKeeps(w.t, ApplySeq(w.t, x, n, p, op), x, c);
        case OpenEnd(o, ds, pick) => CommitKeeps(w.t, o, w.pending[o], ds, c, pick);
        case OpenRecall(o) => ClearWayKeeps(w, o, c);
        case Disturb(p, except) => RecallForKeeps(w, p, except, c);
        case RenameTo(from, to) => RenameKeeps(w.t.s, from, to, c);
        case OpenBegin(o, p, access, deny, trunc, pick) => BeginKeeps(w, o, p, access, deny, trunc, c, pick);
        case OpenAbort(_) => SameKeeps(w.t.s, w.t.s, c);
      }
    }
  }

  lemma ClearWayKeeps(w: World, o: Owner, c: ClientId)
    requires o in w.pending
    ensures Keeps(w.t.s, ClearWay(w, o).t.s, c)
  {
    RecallForKeeps(w, w.pending[o].path, Some(o.client), c);
    SameKeeps(w.t.s, w.t.s, c);
  }

  lemma BeginKeeps(w: World, o: Owner, p: Path, access: Bits, deny: Bits, trunc: bool, c: ClientId, pick: Other)
    ensures Keeps(w.t.s, Begin(w, o, p, access, deny, trunc, pick).t.s, c)
  {
    TouchConfirmed(w.t, o.client);
    SameKeeps(w.t.s, w.t.s, c);
  }

  lemma StepHeard(w: World, step: Step, c: ClientId, since: nat)
    requires Tidy(w.t.s) && ClientsOk(w.t.cl) && HeardFrom(w.t.cl, c, since)
    requires since <= w.t.now < since + w.t.lease && !Acts(w, step, c)
    ensures HeardFrom(Next(w, step).t.cl, c, since) && Next(w, step).t.lease == w.t.lease
  {
    if Enabled(w, step) {
      match step {
        case Plain(op) => PlainHeard(w.t, op, c, since);
        case Sequenced(x, n, p, op) =>
          SeqHasEffect(w.t, x, n, p, op);
          SeqHeard(w.t, x, n, p, op, c, since);
        case OpenEnd(o, ds, pick) => TouchHeard(w.t, o.client, c, since);
        case OpenBegin(o, _, _, _, _, _) => TouchHeard(w.t, o.client, c, since);
        case _ =>
      }
    }
  }

  // ---------- runs ----------

  /** None of the steps is `c`'s own. */
  ghost predicate Quiet(w: World, steps: seq<Step>, c: ClientId) {
    forall i | 0 <= i < |steps| :: !Acts(Run(w, steps[..i]), steps[i], c)
  }

  /**
   A client heard from at `since` loses no open and no lock to anybody else's steps,
   sweeps and client replacements included, as long as the run ends within the lease.
   */
  lemma {:induction false} LeaseProtects(w: World, steps: seq<Step>, c: ClientId, since: nat)
    requires Kept(w) && HeardFrom(w.t.cl, c, since) && since <= w.t.now
    requires Quiet(w, steps, c) && Run(w, steps).t.now < since + w.t.lease
    ensures Keeps(w.t.s, Run(w, steps).t.s, c) && HeardFrom(Run(w, steps).t.cl, c, since)
    ensures Run(w, steps).t.lease == w.t.lease
    decreases |steps|
  {
    if steps != [] {
      var most, last := steps[..|steps|-1], steps[|steps|-1];
      var mid := Run(w, most);
      StepTime(mid, last);
      RunTime(w, most);
      QuietPrefix(w, steps, c);
      LeaseProtects(w, most, c, since);
      RunKept(w, most);
      StepKeeps(mid, last, c, since);
      StepHeard(mid, last, c, since);
      KeepsTrans(w.t.s, mid.t.s, Run(w, steps).t.s, c);
    }
  }

  lemma QuietPrefix(w: World, steps: seq<Step>, c: ClientId)
    requires steps != [] && Quiet(w, steps, c)
    ensures Quiet(w, steps[..|steps|-1], c) && !Acts(Run(w, steps[..|steps|-1]), steps[|steps|-1], c)
  {
    var most := steps[..|steps|-1];
    forall i | 0 <= i < |most| ensures !Acts(Run(w, most[..i]), most[i], c) {
      assert most[..i] == steps[..i] && most[i] == steps[i];
    }
  }

  lemma RequestRenews(t: Tables, x: Other, n: nat, p: Path, op: SeqOp)
    requires WellFormed(t.s, op) && x !in t.s.expired && (op.LockFirst? ==> x in t.s.opens)
    requires SeqOwner(t.s, x).Some? && SeqOwner(t.s, x).value.client in t.cl.all
    ensures var c := SeqOwner(t.s, x).value.client;
            var cl := ApplySeq(t, x, n, p, op).cl;
            c in cl.all && cl.all[c].lastRenew == t.now && cl.confirmed == t.cl.confirmed
  {
    SeqRenews(t, x, n, p, op);
    var o := SeqOwner(t.s, x).value;
    RenewedBy(t, x, ApplySeq(t, x, n, p, op).cl, if op.LockFirst? then op.lo else o);
  }

  lemma RenewedBy(t: Tables, x: Other, cl: Clients, lo: Owner)
    requires x !in t.s.expired && SeqOwner(t.s, x).Some? && SeqOwner(t.s, x).value.client in t.cl.all
    requires cl == TouchOwner(t, x).cl || cl == Touch(TouchOwner(t, x), lo.client).cl
    ensures var c := SeqOwner(t.s, x).value.client;
            c in cl.all && cl.all[c].lastRenew == t.now && cl.confirmed == t.cl.confirmed
  {}

  /** A sequenced request on a live stateid, whatever its outcome, buys its client another lease. */
  lemma RequestProtects(w: World, x: Other, n: nat, p: Path, op: SeqOp, c: ClientId, steps: seq<Step>)
    requires Kept(w) && Enabled(w, Sequenced(x, n, p, op)) && x !in w.t.s.expired
    requires c in w.t.cl.confirmed && (exists o: Owner :: SeqOwner(w.t.s, x) == Some(o) && o.client == c)
    requires op.LockFirst? ==> x in w.t.s.opens
    requires var w1 := Next(w, Sequenced(x, n, p, op));
             Quiet(w1, steps, c) && Run(w1, steps).t.now < w.t.now + w.t.lease
    ensures var w1 := Next(w, Sequenced(x, n, p, op)); Keeps(w1.t.s, Run(w1, steps).t.s, c)
  {
    var step := Sequenced(x, n, p, op);
    StepKept(w, step);
    RequestRenews(w.t, x, n, p, op);
    SeqHasEffect(w.t, x, n, p, op);
    LeaseProtects(Next(w, step), steps, c, w.t.now);
  }

  // ---------- after the lease ----------

  /** The stateid has a tombstone made at `since` or later. */
  ghost predicate Told(s: State, x: Other, since: nat) { x in s.expired && s.expired[x] >= since }

  /** The opens of the lapsed clients, and only theirs, are gone and have tombstones. */
  ghost predicate SweptOpens(opens: map<Other, Open>, s': State, lapsed: set<ClientId>, now: nat) {
    && s'.opens.Keys <= opens.Keys
    && (forall x | x in opens && opens[x].owner.client !in lapsed :: x in s'.opens && s'.opens[x] == opens[x])
    && (forall x | x in opens && opens[x].owner.client in lapsed :: x !in s'.opens && Told(s', x, now))
  }

  /** The same of the locks; a reachable lock's `client` is its owner's. */
  ghost predicate SweptLocks(locks: map<Other, Lock>, s': State, lapsed: set<ClientId>, now: nat) {
    && s'.locks.Keys <= locks.Keys
    && (forall l | l in locks && locks[l].client !in lapsed :: l in s'.locks && s'.locks[l] == locks[l])
    && (forall l | l in locks && locks[l].client in lapsed :: l !in s'.locks)
    && (forall l | l in locks && locks[l].owner.client in lapsed :: Told(s', l, now))
  }

  lemma SweepRows(t: Tables)
    ensures var s', lapsed := Sweep(t).s, LapsedClients(t);
            && s'.opens == OpensNotOf(t.s.opens, lapsed) && s'.locks == LocksNotOf(t.s.locks, lapsed)
            && (forall x | x in OpensHeldBy(t.s.opens, lapsed) + LocksHeldBy(t.s.locks, lapsed) :: Told(s', x, t.now))
  {
    var s1 := SweptTombs(t.s, t.lease, t.now);
    var s2 := Revoke(s1, ForfeitOf(s1, s1.delegs.Keys, t.now, t.recallWait), t.now);
    var t2 := t.(cl := SweptClients(t.cl, t.lease, t.now), s := s2);
    assert LapsedClients(t2) == LapsedClients(t);
    assert s2.opens == t.s.opens && s2.locks == t.s.locks;
  }

  /**
   A sweep removes exactly the lapsed clients: it keeps the opens and locks of the
   others as they are, and turns those of the lapsed into tombstones.
   */
  lemma SweepExact(t: Tables)
    ensures var t', lapsed := Sweep(t), LapsedClients(t);
            && t'.cl.confirmed == t.cl.confirmed - lapsed && lapsed <= t'.cl.expiredIds.Keys
            && LapsedClients(t') == {}
            && SweptOpens(t.s.opens, t'.s, lapsed, t.now) && SweptLocks(t.s.locks, t'.s, lapsed, t.now)
  {
    SweepRows(t);
    OpensSwept(t.s.opens, Sweep(t).s, LapsedClients(t), t.now);
    LocksSwept(t.s.locks, Sweep(t).s, LapsedClients(t), t.now);
    assert LapsedClients(Sweep(t)) == {};
  }

  lemma OpensSwept(opens: map<Other, Open>, s': State, lapsed: set<ClientId>, now: nat)
    requires s'.opens == OpensNotOf(opens, lapsed) && forall x | x in OpensHeldBy(opens, lapsed) :: Told(s', x, now)
    ensures SweptOpens(opens, s', lapsed, now)
  {}

  lemma LocksSwept(locks: map<Other, Lock>, s': State, lapsed: set<ClientId>, now: nat)
    requires s'.locks == LocksNotOf(locks, lapsed) && forall x | x in LocksHeldBy(locks, lapsed) :: Told(s', x, now)
    ensures SweptLocks(locks, s', lapsed, now)
  {}

  lemma SweepTold(t: Tables, x: Other, since: nat)
    requires Told(t.s, x, since) && since <= t.now < since + t.lease
    ensures Told(Sweep(t).s, x, since)
  {}

  lemma SeqTold(t: Tables, x: Other, n: nat, p: Path, op: SeqOp)
    requires WellFormed(t.s, op)
    ensures ApplySeq(t, x, n, p, op).s.expired == t.s.expired && ApplySeq(t, x, n, p, op).lease == t.lease
  {
    SeqHasEffect(t, x, n, p, op);
  }

  lemma CommitTold(t: Tables, o: Owner, q: Pending, ds: bool, pick: Other)
    ensures OpenCommit(t, o, q, ds, pick).0.s.expired == t.s.expired && OpenCommit(t, o, q, ds, pick).0.lease == t.lease
  {}

  lemma PlainTold(t: Tables, op: PlainOp, x: Other, since: nat)
    requires Told(t.s, x, since) && since <= t.now < since + t.lease
    ensures Told(ApplyPlain(t, op).s, x, since) && ApplyPlain(t, op).lease == t.lease
  {
    if op == SweepExpired { SweepTold(t, x, since); }
  }

  lemma StepTold(w: World, step: Step, x: Other, since: nat)
    requires Told(w.t.s, x, since) && since <= w.t.now < since + w.t.lease
    ensures Told(Next(w, step).t.s, x, since) && Next(w, step).t.lease == w.t.lease
  {
    if Enabled(w, step) {
      match step {
        case Plain(op) => PlainTold(w.t, op, x, since);
        case Sequenced(y, n, p, op) => SeqTold(w.t, y, n, p, op);
        case OpenEnd(o, ds, pick) => CommitTold(w.t, o, w.pending[o], ds, pick);
        case _ =>
      }
    }
  }

  /** For a whole lease period after its tombstone a stateid answers EXPIRED, whatever else happens. */
  lemma {:induction false} ExpiredIsTold(w: World, steps: seq<Step>, x: Other, since: nat, n: nat, p: Path)
    requires Told(w.t.s, x, since) && since <= w.t.now && Run(w, steps).t.now < since + w.t.lease
    ensures var s := Run(w, steps).t.s;
            && Told(s, x, since) && Run(w, steps).t.lease == w.t.lease
            && ResolveOpen(s, x, n, p) == ResolveLock(s, x, n, p) == Expired
            && ResolveDeleg(s, x, n, p) == ResolveIO(s, x, n, p) == Expired
    decreases |steps|
  {
    if steps != [] {
      var most, last := steps[..|steps|-1], steps[|steps|-1];
      StepTime(Run(w, most), last);
      RunTime(w, most);
      ExpiredIsTold(w, most, x, since, n, p);
      StepTold(Run(w, most), last, x, since);
    }
  }
}
