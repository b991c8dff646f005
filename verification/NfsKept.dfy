/**
 What every run of the NFSv4 state machine keeps, whatever is renamed and however OPENs
 interleave: stateids are fresh and live in one table only, every lock state stands on a
 live open of its own client and path, client records are consistent, and a delegation
 is recalled at most once.
 */
module NfsKept {
  import opened LockRanges
  import opened NfsTables
  import opened NfsInvariants
  import opened NfsRuns

  /** Only open-owners have an OPEN in flight. */
  ghost predicate Openers(pending: map<Owner, Pending>) { forall o :: o in pending ==> o.kind == OpenOwner }

  /** A delegation is recalled at most once, and a live recalled one is marked. */
  ghost predicate RecallsOk(s: State, recalls: multiset<Other>) {
    forall d :: d in recalls ==> recalls[d] == 1 && 0 < d <= s.next && (d in s.delegs ==> s.delegs[d].recalling)
  }

  ghost predicate Kept(w: World) {
    Tidy(w.t.s) && ClientsOk(w.t.cl) && Openers(w.pending) && RecallsOk(w.t.s, w.recalls)
  }

  // ---------- shrinking the tables ----------

  lemma FewerStand(s: State, s': State)
    requires LocksStand(s.opens, s.locks) && SubMap(s'.opens, s.opens) && SubMap(s'.locks, s.locks)
    requires forall l :: l in s'.locks ==> s'.locks[l].open in s'.opens
    ensures LocksStand(s'.opens, s'.locks)
  {}

  lemma StandClients(s: State)
    requires LocksStand(s.opens, s.locks)
    ensures forall l :: l in s.locks ==> s.locks[l].open in s.opens
    ensures forall l :: l in s.locks ==> s.locks[l].client == s.locks[l].owner.client
    ensures forall l :: l in s.locks ==> s.locks[l].client == s.opens[s.locks[l].open].owner.client
  {}

  lemma SameTidy(s: State, s': State)
    requires Tidy(s) && s'.opens == s.opens && s'.locks == s.locks && IdsOk(s') && ClosedOk(s')
    ensures Tidy(s')
  {}

  lemma WithoutStateTidy(s: State, dead: set<ClientId>)
    requires Tidy(s)
    ensures Tidy(WithoutStateOf(s, dead))
  {
    StandClients(s);
    WithoutStateIds(s, dead);
    FewerStand(s, WithoutStateOf(s, dead));
  }

  lemma WithoutLocksTidy(s: State, lo: Owner)
    requires Tidy(s)
    ensures Tidy(WithoutLocksOf(s, lo))
  {
    StandClients(s);
    WithoutLocksIds(s, lo);
    FewerStand(s, WithoutLocksOf(s, lo));
  }

  lemma WithoutOpenTidy(s: State, x: Other)
    requires Tidy(s) && x in s.opens
    ensures Tidy(WithoutOpen(s, x))
  {
    StandClients(s);
    WithoutOpenIds(s, x);
    WithoutOpenClosed(s, x);
    WithoutOpenShrinks(s, x);
    FewerStand(s, WithoutOpen(s, x));
  }

  // ---------- opens and locks ----------

  lemma WithSharesTidy(s: State, x: Other, access: Bits, deny: Bits)
    requires Tidy(s) && x in s.opens
    ensures Tidy(WithShares(s, x, access, deny))
  {
    SetOpenIds(s, x, WithShares(s, x, access, deny).opens[x]);
  }

  lemma WithOpenTidy(s: State, o: Owner, q: Pending)
    requires Tidy(s) && o.kind == OpenOwner
    ensures Tidy(WithOpen(s, o, q))
  {
    NewOpenIds(s, o, q);
  }

  lemma WithLockTidy(s: State, lo: Owner, x: Other, p: Path, r: LockRange)
    requires Tidy(s) && Locked(s, WithLock(s, lo, x, p, r), lo, x, p, r)
    ensures Tidy(WithLock(s, lo, x, p, r))
  {
    NewLockIds(s, lo, x, p, r);
    SingleRange(r);
  }

  lemma WithRangesTidy(s: State, l: Other, ranges: seq<LockRange>)
    requires Tidy(s) && l in s.locks && Canonical(ranges)
    ensures Tidy(WithRanges(s, l, ranges))
  {
    SetLockIds(s, l, WithRanges(s, l, ranges).locks[l]);
  }

  lemma EffectTidy(t: Tables, t': Tables, x: Other)
    requires Tidy(t.s) && SeqEffect(t, t', x)
    ensures Tidy(t'.s)
  {
    if t'.s == t.s.(okOwners := t'.s.okOwners) {
      OwnersTidy(t.s, t'.s);
    } else if x in t.s.opens && t'.s == WithoutOpen(t.s, x) {
      WithoutOpenTidy(t.s, x);
    } else if access: Bits, deny: Bits :| Narrowed(t.s, t'.s, x, access, deny) {
      WithSharesTidy(t.s, x, access, deny);
    } else {
      LockingTidy(t.s, t'.s, x);
    }
  }

  lemma OwnersTidy(s: State, s': State)
    requires Tidy(s) && s' == s.(okOwners := s'.okOwners)
    ensures Tidy(s')
  {}

  lemma LockingTidy(s: State, s': State, x: Other)
    requires Tidy(s)
    requires (exists lo: Owner, p: Path, r: LockRange :: Locked(s, s', lo, x, p, r))
          || (exists ranges: seq<LockRange> :: Ranged(s, s', x, ranges))
    ensures Tidy(s')
  {
    if lo: Owner, p: Path, r: LockRange :| Locked(s, s', lo, x, p, r) {
      WithLockTidy(s, lo, x, p, r);
    } else {
      var ranges :| Ranged(s, s', x, ranges);
      WithRangesTidy(s, x, ranges);
    }
  }

  lemma CommitTidy(t: Tables, o: Owner, q: Pending, delegations: bool, pick: Other)
    requires Tidy(t.s) && o.kind == OpenOwner
    ensures Tidy(OpenCommit(t, o, q, delegations, pick).0.s)
  {
    if OpenStatus(t.s, o, q) == Ok {
      match FindOpen(t.s, q.path, o, pick) {
        case None => WithOpenTidy(t.s, o, q);
        case Some(x) => WithSharesTidy(t.s, x, q.unionAccess, q.unionDeny);
      }
      var s1 := PlaceOpen(t.s, o, q, pick);
      GrantTidy(s1, o.client, q.path);
      TouchSafe(t.(s := if delegations then Grant(t.cl, s1, q.path, o, q.unionAccess) else s1), o.client);
    }
  }

  lemma GrantTidy(s: State, c: ClientId, p: Path)
    requires Tidy(s)
    ensures Tidy(WithDeleg(s, c, p))
  {
    GrantIds(s, c, p);
  }

  // ---------- delegations, rename, sweep ----------

  lemma RecallTidy(t: Tables, p: Path, except: Option<ClientId>)
    requires Tidy(t.s)
    ensures Tidy(Recall(t, p, except).0.s)
  {
    var gone := ForfeitOf(t.s, Disturbed(t.s, p, except), t.now, t.recallWait);
    RevokeIds(t.s, gone, t.now);
    MarkIds(Revoke(t.s, gone, t.now), RecallJobs(t.s, p, except), t.now);
    SameTidy(t.s, Recall(t, p, except).0.s);
  }

  lemma RenameTidy(s: State, from: Path, to: Path)
    requires Tidy(s)
    ensures Tidy(Rename(s, from, to))
  {
    RenameIds(s, from, to);
  }

  lemma SweepTidy(t: Tables)
    requires Tidy(t.s)
    ensures Tidy(Sweep(t).s)
  {
    var s1 := SweptTombs(t.s, t.lease, t.now);
    SweptTombsIds(t.s, t.lease, t.now);
    var gone := ForfeitOf(s1, s1.delegs.Keys, t.now, t.recallWait);
    var s2 := Revoke(s1, gone, t.now);
    RevokeIds(s1, gone, t.now);
    SameTidy(t.s, s2);
    var t2 := t.(cl := SweptClients(t.cl, t.lease, t.now), s := s2);
    ExpireTidy(s2, LapsedClients(t2), t.now);
  }

  lemma ExpireTidy(s: State, dead: set<ClientId>, now: nat)
    requires Tidy(s)
    ensures Tidy(WithoutStateOf(Tombstoned(s, dead, now), dead))
  {
    StandClients(s);
    ExpireIds(s, dead, now);
    WithoutStateTidy(s, dead);
    SameTidy(WithoutStateOf(s, dead), WithoutStateOf(Tombstoned(s, dead, now), dead));
  }

  lemma PlainTidy(t: Tables, op: PlainOp)
    requires Tidy(t.s) && ClientsOk(t.cl)
    ensures Tidy(ApplyPlain(t, op).s)
  {
    match op {
      case ConfirmClientId(id, ok) =>
        if id in t.cl.unconfirmed && ok && t.cl.all[id].ownerId in t.cl.byOwner {
          WithoutStateTidy(t.s, {t.cl.byOwner[t.cl.all[id].ownerId]});
        }
      case ReturnDeleg(x, n, p) =>
        DropDelegIds(t.s, {x});
        SameTidy(t.s, t.s.(delegs := t.s.delegs - {x}));
      case ReleaseOwner(lo) => WithoutLocksTidy(t.s, lo);
      case SweepExpired => SweepTidy(t);
      case _ =>
    }
  }

  // ---------- steps and runs ----------

  lemma StepTidy(w: World, step: Step)
    requires Tidy(w.t.s) && ClientsOk(w.t.cl) && Openers(w.pending)
    ensures Tidy(Next(w, step).t.s)
  {
    if Enabled(w, step) {
      match step {
        case Plain(op) => PlainTidy(w.t, op);
        case Sequenced(x, n, p, op) =>
          SeqHasEffect(w.t, x, n, p, op);
          EffectTidy(w.t, ApplySeq(w.t, x, n, p, op), x);
        case OpenBegin(o, _, _, _, _, _) => TouchSafe(w.t, o.client);
        case OpenRecall(o) => RecallTidy(w.t, w.pending[o].path, Some(o.client));
        case OpenEnd(o, ds, pick) => CommitTidy(w.t, o, w.pending[o], ds, pick);
        case OpenAbort(_) =>
        case Disturb(p, except) => RecallTidy(w.t, p, except);
        case RenameTo(from, to) => RenameTidy(w.t.s, from, to);
      }
    }
  }

  lemma PlainClients(t: Tables, op: PlainOp)
    requires ClientsOk(t.cl)
    ensures ClientsOk(ApplyPlain(t, op).cl)
  {
    match op {
      case SetClient(ownerId, principal) => SetClientIdSafe(t, ownerId, principal);
      case ConfirmClientId(id, ok) => ConfirmClients(t, id, ok);
      case RenewLease(id) => TouchSafe(t, id);
      case ReleaseOwner(lo) => TouchSafe(t, lo.client);
      case SweepExpired => SweepClients(t);
      case _ =>
    }
  }

  lemma ConfirmClients(t: Tables, id: ClientId, ok: bool)
    requires ClientsOk(t.cl)
    ensures ClientsOk(ConfirmClient(t, id, ok).0.cl)
  {
    TouchSafe(t, id);
    if id in t.cl.unconfirmed && ok {
      ConfirmedSafe(t.cl, id);
      var owner := t.cl.all[id].ownerId;
      var t1 := if owner in t.cl.byOwner then Release(t, {t.cl.byOwner[owner]}) else t;
      TouchSafe(t1.(cl := Confirmed(t1.cl, id, owner)), id);
    }
  }

  lemma SweepClients(t: Tables)
    requires ClientsOk(t.cl)
    ensures ClientsOk(Sweep(t).cl)
  {
    var cl := SweptClients(t.cl, t.lease, t.now);
    assert ClientsOk(cl);
    var t2 := t.(cl := cl);
    WithoutClientsSafe(cl.(expiredIds := cl.expiredIds + Stamped(LapsedClients(t2), t.now)), LapsedClients(t2));
  }

  lemma SeqClients(t: Tables, x: Other, n: nat, p: Path, op: SeqOp)
    requires ClientsOk(t.cl) && WellFormed(t.s, op)
    ensures ClientsOk(ApplySeq(t, x, n, p, op).cl)
  {
    TouchOwnerSafe(t, x);
    if op.LockFirst? && x in t.s.opens {
      TouchSafe(t, t.s.opens[x].owner.client);
      TouchSafe(Touch(t, t.s.opens[x].owner.client), op.lo.client);
    }
  }

  lemma StepClients(w: World, step: Step)
    requires ClientsOk(w.t.cl)
    ensures ClientsOk(Next(w, step).t.cl)
  {
    if Enabled(w, step) {
      match step {
        case Plain(op) => PlainClients(w.t, op);
        case Sequenced(x, n, p, op) => SeqClients(w.t, x, n, p, op);
        case OpenBegin(o, _, _, _, _, _) => TouchSafe(w.t, o.client);
        case OpenEnd(o, _, _) => TouchSafe(w.t, o.client);
        case _ =>
      }
    }
  }

  lemma RecallsKept(s: State, s': State, recalls: multiset<Other>)
    requires RecallsOk(s, recalls) && Evolves(s, s')
    ensures RecallsOk(s', recalls)
  {}

  lemma RecallMarks(t: Tables, p: Path, except: Option<ClientId>, recalls: multiset<Other>)
    requires RecallsOk(t.s, recalls) && IdsOk(t.s)
    ensures RecallsOk(Recall(t, p, except).0.s, recalls + multiset(RecallJobs(t.s, p, except)))
  {
    var jobs := RecallJobs(t.s, p, except);
    var s' := Recall(t, p, except).0.s;
    RecallEvolves(t, p, except);
    RecallsKept(t.s, s', recalls);
    var total: multiset<Other> := recalls + multiset(jobs);
    forall d | d in total
      ensures total[d] == 1 && 0 < d <= s'.next && (d in s'.delegs ==> s'.delegs[d].recalling)
    {
      if d in jobs { assert d !in recalls; }
    }
  }

  lemma StepRecalls(w: World, step: Step)
    requires RecallsOk(w.t.s, w.recalls) && IdsOk(w.t.s)
    ensures RecallsOk(Next(w, step).t.s, Next(w, step).recalls)
  {
    StepEvolves(w, step);
    if Enabled(w, step) && step.Disturb? {
      RecallMarks(w.t, step.path, step.except, w.recalls);
    } else if Enabled(w, step) && step.OpenRecall? {
      RecallMarks(w.t, w.pending[step.o].path, Some(step.o.client), w.recalls);
    } else {
      RecallsKept(w.t.s, Next(w, step).t.s, w.recalls);
    }
  }

  lemma StepOpeners(w: World, step: Step)
    requires Openers(w.pending)
    ensures Openers(Next(w, step).pending)
  {}

  lemma StepKept(w: World, step: Step)
    requires Kept(w)
    ensures Kept(Next(w, step))
  {
    StepTidy(w, step);
    StepClients(w, step);
    StepOpeners(w, step);
    StepRecalls(w, step);
  }

  lemma {:induction false} RunKept(w: World, steps: seq<Step>)
    requires Kept(w)
    ensures Kept(Run(w, steps))
  {
    if steps != [] {
      RunKept(w, steps[..|steps|-1]);
      StepKept(Run(w, steps[..|steps|-1]), steps[|steps|-1]);
    }
  }

  /** In every state reachable from the empty store, with no condition on the run. */
  lemma EveryRunKept(lease: nat, recallWait: nat, steps: seq<Step>)
    ensures var w := Run(Start(lease, recallWait), steps);
            Kept(w) && AllCanonical(w.t.s) && forall d :: w.recalls[d] <= 1
  {
    var w := Run(Start(lease, recallWait), steps);
    RunKept(Start(lease, recallWait), steps);
    forall d ensures w.recalls[d] <= 1 { if d in w.recalls {} }
  }
}
