/**
 LOCK in its two critical sections (nfs4/ops_lock.go, lock; nfs4/state.go, resolveStateid).

 The first finds the open or lock state under the path of the request's file.  The second
 checks that it is still there and then works under that path, without asking whether a
 RENAME has moved the state since.  Each second section is given its exact condition.
 */
module NfsLockPhases {
  import opened LockRanges
  import opened NfsTables
  import opened NfsInvariants
  import opened NfsRuns
  import opened NfsKept
  import opened NfsSafety
  import opened NfsRouting

  /** A LOCK between its sections: the first of a lock-owner on a file, or a further one. */
  datatype Half =
    | First(x: Other, open: Owner, path: Path, r: LockRange)
    | More(l: Other, path: Path, r: LockRange)

  /** `halves` are the LOCKs between their sections, by lock-owner. */
  datatype Phases = Phases(w: World, halves: map<Owner, Half>)

  datatype Event =
    | Does(step: Step)
    | Resolve(x: Other, seqid: nat, path: Path, sop: SeqOp)
    | Finish(lo: Owner)

  /** The owner's mutex is held by a LOCK. */
  ghost predicate Busy(m: Phases, o: Owner) {
    o in m.halves || exists lo | lo in m.halves :: m.halves[lo].First? && m.halves[lo].open == o
  }

  /** The step needs a mutex that a LOCK holds. */
  ghost predicate Waits(m: Phases, step: Step) {
    match step
    case Sequenced(x, _, _, op) =>
      || (SeqOwner(m.w.t.s, x).Some? && Busy(m, SeqOwner(m.w.t.s, x).value))
      || (op.LockFirst? && Busy(m, op.lo))
    case OpenBegin(o, _, _, _, _, _) => Busy(m, o)
    case Plain(op) => op.ReleaseOwner? && Busy(m, op.lo)
    case _ => false
  }

  ghost predicate CanResolve(m: Phases, x: Other, n: nat, p: Path, op: SeqOp) {
    && (op.LockFirst? || op.LockAgain?)
    && Enabled(m.w, Sequenced(x, n, p, op)) && !Waits(m, Sequenced(x, n, p, op))
  }

  /** What the first section leaves to the second, keyed by the lock-owner. */
  ghost function Resolved(t: Tables, x: Other, n: nat, p: Path, op: SeqOp): Option<(Owner, Half)>
    requires op.LockFirst? || op.LockAgain?
  {
    if op.LockAgain? then
      if ResolveLock(t.s, x, n, p) == Ok then Some((t.s.locks[x].owner, More(x, p, op.r))) else None
    else if ClientStatus(t.cl, op.lo.client) == Ok && ResolveOpen(t.s, x, n, p) == Ok
            && t.s.opens[x].owner.client == op.lo.client then
      Some((op.lo, First(x, t.s.opens[x].owner, p, op.r)))
    else None
  }

  /** The first section renews leases and changes nothing else. */
  ghost function ResolveStep(m: Phases, x: Other, n: nat, p: Path, op: SeqOp): Phases
    requires CanResolve(m, x, n, p, op)
  {
    var w := m.w.(t := ApplySeq(m.w.t, x, n, p, op).(s := m.w.t.s));
    match Resolved(m.w.t, x, n, p, op)
    case None => m.(w := w)
    case Some((lo, half)) => Phases(w, m.halves[lo := half])
  }

  ghost function FinishStatus(s: State, lo: Owner, half: Half): Status
    requires half.r.Wf() && AllCanonical(s)
  {
    match half
    case First(x, _, p, r) =>
      if x !in s.opens then BadStateid
      else if !s.opens[x].access.Allows(r.write) then OpenMode
      else if exists l :: IsLockOf(s, p, lo, l) then Inval
      else if LockConflict(s, p, lo, r) then Denied
      else Ok
    case More(l, p, r) =>
      if l !in s.locks || s.locks[l].open !in s.opens then BadStateid
      else if !s.opens[s.locks[l].open].access.Allows(r.write) then OpenMode
      else if LockConflict(s, p, s.locks[l].owner, r) then Denied
      else if |Updated(s.locks[l].ranges, r)| > MAX_LOCK_RANGES then Resource
      else Ok
  }

  ghost function Finished(t: Tables, lo: Owner, half: Half): Tables
    requires half.r.Wf() && AllCanonical(t.s)
  {
    if FinishStatus(t.s, lo, half) != Ok then t
    else match half
      case First(x, _, p, r) => t.(s := WithLock(t.s, lo, x, p, r))
      case More(l, _, r) =>
        Touch(t.(s := WithRanges(t.s, l, Updated(t.s.locks[l].ranges, r))), t.s.locks[l].client)
  }

  ghost predicate CanFinish(m: Phases, lo: Owner) {
    lo in m.halves && m.halves[lo].r.Wf() && AllCanonical(m.w.t.s)
  }

  ghost function Handle(m: Phases, e: Event): Phases {
    match e
    case Does(step) => if Waits(m, step) then m else m.(w := Next(m.w, step))
    case Resolve(x, n, p, op) => if CanResolve(m, x, n, p, op) then ResolveStep(m, x, n, p, op) else m
    case Finish(lo) =>
      if CanFinish(m, lo) then Phases(m.w.(t := Finished(m.w.t, lo, m.halves[lo])), m.halves - {lo}) else m
  }

  ghost function HandleAll(m: Phases, events: seq<Event>): Phases
    decreases |events|
  {
    if events == [] then m else HandleAll(Handle(m, events[0]), events[1..])
  }

  ghost function Boot(lease: nat, recallWait: nat): Phases { Phases(Start(lease, recallWait), map[]) }

  // ---------- with nothing in between ----------

  /** A LOCK whose two sections follow one another is the one step that the runs have. */
  lemma UndisturbedIsOneStep(m: Phases, x: Other, n: nat, p: Path, op: SeqOp, m1: Phases)
    requires Kept(m.w) && CanResolve(m, x, n, p, op) && m1 == Handle(m, Resolve(x, n, p, op))
    ensures var got := Resolved(m.w.t, x, n, p, op);
            && (got.None? ==> m1.w == Next(m.w, Sequenced(x, n, p, op)))
            && (got.Some? ==> CanFinish(m1, got.value.0)
                              && Handle(m1, Finish(got.value.0)).w == Next(m.w, Sequenced(x, n, p, op)))
  {
    if op.LockFirst? { FirstIsOneStep(m.w.t, x, n, p, op); } else { MoreIsOneStep(m.w.t, x, n, p, op); }
  }

  lemma FirstIsOneStep(t: Tables, x: Other, n: nat, p: Path, op: SeqOp)
    requires Tidy(t.s) && op.LockFirst? && WellFormed(t.s, op)
    ensures var t1, got := ApplySeq(t, x, n, p, op).(s := t.s), Resolved(t, x, n, p, op);
            && (got.None? ==> t1 == ApplySeq(t, x, n, p, op))
            && (got.Some? ==> Finished(t1, got.value.0, got.value.1) == ApplySeq(t, x, n, p, op))
  {
    if x in t.s.opens {
      TouchSafe(t, t.s.opens[x].owner.client);
      TouchSafe(Touch(t, t.s.opens[x].owner.client), op.lo.client);
      if Resolved(t, x, n, p, op).Some? { FirstStatus(t.s, x, n, p, op.lo, op.r); }
    }
  }

  lemma FirstStatus(s: State, x: Other, n: nat, p: Path, lo: Owner, r: LockRange)
    requires r.Wf() && AllCanonical(s) && ResolveOpen(s, x, n, p) == Ok && s.opens[x].owner.client == lo.client
    ensures FinishStatus(s, lo, First(x, s.opens[x].owner, p, r)) == LockNewStatus(s, x, n, lo, p, r)
  {}

  lemma MoreIsOneStep(t: Tables, x: Other, n: nat, p: Path, op: SeqOp)
    requires Tidy(t.s) && op.LockAgain? && WellFormed(t.s, op)
    ensures var t1, got := ApplySeq(t, x, n, p, op).(s := t.s), Resolved(t, x, n, p, op);
            && (got.None? ==> t1 == ApplySeq(t, x, n, p, op))
            && (got.Some? ==> Finished(t1, got.value.0, got.value.1) == ApplySeq(t, x, n, p, op))
  {
    TouchOwnerSafe(t, x);
    if ResolveLock(t.s, x, n, p) == Ok { MoreFinished(t, TouchOwner(t, x), x, n, p, op.r); }
  }

  lemma MoreFinished(t: Tables, t1: Tables, l: Other, n: nat, p: Path, r: LockRange)
    requires Tidy(t.s) && r.Wf() && AllCanonical(t.s) && t1.s == t.s && t1 == TouchOwner(t, l)
    requires ResolveLock(t.s, l, n, p) == Ok
    ensures Finished(t1, t.s.locks[l].owner, More(l, p, r)) == LockMore(t, l, n, p, r).0
  {
    MoreStatus(t.s, l, n, p, r);
    assert t1 == Touch(t, t.s.locks[l].client);
    if LockMoreStatus(t.s, l, n, p, r) == Ok {
      TouchAgain(t, t.s.locks[l].client, WithRanges(t.s, l, Updated(t.s.locks[l].ranges, r)));
    }
  }

  lemma MoreStatus(s: State, l: Other, n: nat, p: Path, r: LockRange)
    requires r.Wf() && AllCanonical(s) && ResolveLock(s, l, n, p) == Ok
    ensures FinishStatus(s, s.locks[l].owner, More(l, p, r)) == LockMoreStatus(s, l, n, p, r)
  {}

  lemma TouchAgain(t: Tables, c: ClientId, s: State)
    ensures Touch(Touch(t, c).(s := s), c) == Touch(t, c).(s := s)
  {}

  // ---------- rows keep their owner, and their path but for a rename ----------

  ghost predicate RowsKept(s: State, s': State) {
    && s.next <= s'.next
    && (forall x | x in s'.opens && x <= s.next ::
          x in s.opens && s'.opens[x].owner == s.opens[x].owner && s'.opens[x].path == s.opens[x].path)
    && (forall l | l in s'.locks && l <= s.next ::
          l in s.locks && s'.locks[l].owner == s.locks[l].owner && s'.locks[l].path == s.locks[l].path)
  }

  lemma SweepRows(t: Tables)
    ensures RowsKept(t.s, Sweep(t).s)
  {
    var s1 := SweptTombs(t.s, t.lease, t.now);
    var s2 := Revoke(s1, ForfeitOf(s1, s1.delegs.Keys, t.now, t.recallWait), t.now);
    var t2 := t.(cl := SweptClients(t.cl, t.lease, t.now), s := s2);
    assert Sweep(t).s == WithoutStateOf(Tombstoned(s2, LapsedClients(t2), t.now), LapsedClients(t2));
  }

  lemma PlainRows(t: Tables, op: PlainOp)
    ensures RowsKept(t.s, ApplyPlain(t, op).s)
  {
    if op.SweepExpired? { SweepRows(t); }
  }

  lemma EffectRows(t: Tables, t': Tables, x: Other)
    requires SeqEffect(t, t', x)
    ensures RowsKept(t.s, t'.s)
  {
    if t'.s == t.s.(okOwners := t'.s.okOwners) || (x in t.s.opens && t'.s == WithoutOpen(t.s, x)) {
    } else if access: Bits, deny: Bits :| Narrowed(t.s, t'.s, x, access, deny) {
    } else {
      LockingRows(t.s, t'.s, x);
    }
  }

  lemma LockingRows(s: State, s': State, x: Other)
    requires (exists lo: Owner, p: Path, r: LockRange :: Locked(s, s', lo, x, p, r))
          || (exists ranges: seq<LockRange> :: Ranged(s, s', x, ranges))
    ensures RowsKept(s, s')
  {}

  lemma CommitRows(t: Tables, o: Owner, q: Pending, ds: bool, pick: Other)
    requires IdsOk(t.s)
    ensures RowsKept(t.s, OpenCommit(t, o, q, ds, pick).0.s)
  {
    assert RowsKept(t.s, PlaceOpen(t.s, o, q, pick));
  }

  lemma StepRows(w: World, step: Step)
    requires IdsOk(w.t.s) && !step.RenameTo?
    ensures RowsKept(w.t.s, Next(w, step).t.s)
  {
    if Enabled(w, step) {
      match step {
        case Plain(op) => PlainRows(w.t, op);
        case Sequenced(x, n, p, op) =>
          SeqHasEffect(w.t, x, n, p, op);
          EffectRows(w.t, ApplySeq(w.t, x, n, p, op), x);
        case OpenEnd(o, ds, pick) => CommitRows(w.t, o, w.pending[o], ds, pick);
        case _ => QuietRows(w, step);
      }
    }
  }

  // ---------- safety ----------

  /** What a half still knows: its owners do not change, and a state that is gone stays gone. */
  ghost predicate HalfOk(s: State, lo: Owner, half: Half) {
    && half.r.Wf()
    && match half
       case First(x, open, _, _) =>
         && lo.kind == LockOwner && open.client == lo.client && x <= s.next
         && (x in s.opens ==> s.opens[x].owner == open)
       case More(l, _, _) => l <= s.next && (l in s.locks ==> s.locks[l].owner == lo)
  }

  ghost predicate HalvesOk(m: Phases) {
    forall lo | lo in m.halves :: HalfOk(m.w.t.s, lo, m.halves[lo])
  }

  ghost predicate PhasesOk(m: Phases) { WorldOk(m.w) && HalvesOk(m) }

  /** The second section still finds the state where the first did, or conflicts with nothing where it is now. */
  ghost predicate Fits(s: State, lo: Owner, half: Half) {
    match half
    case First(x, _, p, _) => x in s.opens && s.opens[x].path == p
    case More(l, _, r) => l in s.locks && !LockConflict(s, s.locks[l].path, lo, r)
  }

  lemma FirstSafe(s: State, lo: Owner, half: Half)
    requires StateOk(s) && AllCanonical(s) && HalfOk(s, lo, half) && half.First? && FinishStatus(s, lo, half) == Ok
    ensures StateOk(WithLock(s, lo, half.x, half.path, half.r)) <==> Fits(s, lo, half)
  {
    var x, p, r := half.x, half.path, half.r;
    var s' := WithLock(s, lo, x, p, r);
    if Fits(s, lo, half) {
      NewLockIds(s, lo, x, p, r);
      SingleBacked(lo, x, r, s.opens[x]);
      SetLockBacked(s.opens, s.locks, s.next + 1, Lock(1, lo.client, lo, x, p, [r]));
      WithLockExclusive(s, lo, x, p, r);
      StateOkParts(s');
    } else {
      assert s.next + 1 in s'.locks && s'.locks[s.next + 1].path != s'.opens[x].path;
    }
  }

  lemma MoreSafe(s: State, lo: Owner, half: Half)
    requires StateOk(s) && AllCanonical(s) && HalfOk(s, lo, half) && half.More? && FinishStatus(s, lo, half) == Ok
    ensures StateOk(WithRanges(s, half.l, Updated(s.locks[half.l].ranges, half.r))) <==> Fits(s, lo, half)
  {
    var l, r := half.l, half.r;
    var held := s.locks[l];
    if Fits(s, lo, half) {
      UpdateAllowed(held.ranges, r, s.opens[held.open].access);
      forall m | m in s.locks && m != l && s.locks[m].path == held.path
        ensures Excludes(Updated(held.ranges, r), s.locks[m].ranges)
        ensures Excludes(s.locks[m].ranges, Updated(held.ranges, r))
      {
        UpdatedExcludes(s, l, r, m);
      }
      WithRangesSafe(s, l, Updated(held.ranges, r));
    } else {
      var m :| m in s.locks && s.locks[m].path == held.path && s.locks[m].owner != lo
               && RangesConflict(s.locks[m].ranges, r);
      OverlapsAfter(s, l, r, m);
    }
  }

  /** Two owners hold a byte, one of them for writing. */
  lemma OverlapsAfter(s: State, l: Other, r: LockRange, m: Other)
    requires AllCanonical(s) && r.Wf() && l in s.locks && m in s.locks && l != m && s.locks[l].path == s.locks[m].path
    requires RangesConflict(s.locks[m].ranges, r)
    ensures !LocksExclusive(WithRanges(s, l, Updated(s.locks[l].ranges, r)).locks)
  {
    var mine, theirs := Updated(s.locks[l].ranges, r), s.locks[m].ranges;
    ConflictStays(mine, theirs, r);
    var locks := WithRanges(s, l, mine).locks;
    assert locks[l].ranges == mine && locks[m].ranges == theirs && locks[l].path == locks[m].path;
  }

  lemma ConflictStays(mine: seq<LockRange>, theirs: seq<LockRange>, r: LockRange)
    requires Canonical(theirs) && r.Wf() && RangesConflict(theirs, r)
    requires forall b: nat :: r.Covers(b) ==> ModeAt(mine, b) == if r.write then WriteLocked else ReadLocked
    ensures !Excludes(mine, theirs) || !Excludes(theirs, mine)
  {
    ConflictIsPointwise(theirs, r);
    var b: nat :| r.Covers(b) && if r.write then ModeAt(theirs, b) != Unlocked else ModeAt(theirs, b) == WriteLocked;
  }

  /** A second section keeps everything exactly when it fits. */
  lemma FinishSafeIff(t: Tables, lo: Owner, half: Half)
    requires Safe(t) && AllCanonical(t.s) && HalfOk(t.s, lo, half) && FinishStatus(t.s, lo, half) == Ok
    ensures Safe(Finished(t, lo, half)) <==> Fits(t.s, lo, half)
  {
    match half
    case First(_, _, _, _) => FirstSafe(t.s, lo, half);
    case More(l, _, r) =>
      MoreSafe(t.s, lo, half);
      TouchSafe(t.(s := WithRanges(t.s, l, Updated(t.s.locks[l].ranges, r))), t.s.locks[l].client);
  }

  // ---------- every run ----------

  /** A commit, a rename or the second section of a LOCK meets its condition. */
  ghost predicate CarefulEvent(m: Phases, e: Event) {
    match e
    case Does(step) => Waits(m, step) || Careful(m.w, step)
    case Resolve(_, _, _, _) => true
    case Finish(lo) =>
      CanFinish(m, lo) && FinishStatus(m.w.t.s, lo, m.halves[lo]) == Ok ==> Fits(m.w.t.s, lo, m.halves[lo])
  }

  lemma HalfKept(s: State, s': State, lo: Owner, half: Half)
    requires HalfOk(s, lo, half) && (RowsKept(s, s') || exists from, to :: s' == Rename(s, from, to))
    ensures HalfOk(s', lo, half)
  {}

  lemma StepHalves(m: Phases, step: Step, w': World)
    requires HalvesOk(m) && IdsOk(m.w.t.s) && w' == Next(m.w, step)
    ensures HalvesOk(m.(w := w'))
  {
    if step.RenameTo? {
      forall lo | lo in m.halves ensures HalfOk(w'.t.s, lo, m.halves[lo]) {
        if Enabled(m.w, step) { assert w'.t.s == Rename(m.w.t.s, step.from, step.to); }
        HalfKept(m.w.t.s, w'.t.s, lo, m.halves[lo]);
      }
    } else {
      StepRows(m.w, step);
      forall lo | lo in m.halves ensures HalfOk(w'.t.s, lo, m.halves[lo]) {
        HalfKept(m.w.t.s, w'.t.s, lo, m.halves[lo]);
      }
    }
  }

  lemma ResolvedOk(t: Tables, x: Other, n: nat, p: Path, op: SeqOp)
    requires IdsOk(t.s) && (op.LockFirst? || op.LockAgain?) && WellFormed(t.s, op)
    ensures var got := Resolved(t, x, n, p, op); got.Some? ==> HalfOk(t.s, got.value.0, got.value.1)
  {}

  lemma ResolveHalves(m: Phases, e: Event)
    requires HalvesOk(m) && IdsOk(m.w.t.s) && e.Resolve?
    ensures HalvesOk(Handle(m, e)) && Handle(m, e).w.t.s == m.w.t.s
  {
    if CanResolve(m, e.x, e.seqid, e.path, e.sop) { ResolvedOk(m.w.t, e.x, e.seqid, e.path, e.sop); }
  }

  lemma FinishHalves(m: Phases, lo: Owner)
    requires HalvesOk(m) && IdsOk(m.w.t.s)
    ensures HalvesOk(Handle(m, Finish(lo)))
  {
    if CanFinish(m, lo) {
      var s' := Finished(m.w.t, lo, m.halves[lo]).s;
      FinishRows(m.w.t, lo, m.halves[lo]);
      forall k | k in m.halves && k != lo ensures HalfOk(s', k, m.halves[k]) {
        HalfKept(m.w.t.s, s', k, m.halves[k]);
      }
    }
  }

  lemma FinishRows(t: Tables, lo: Owner, half: Half)
    requires half.r.Wf() && AllCanonical(t.s)
    ensures RowsKept(t.s, Finished(t, lo, half).s)
  {
    if FinishStatus(t.s, lo, half) == Ok {
      match half
      case First(x, _, p, r) => WithLockRows(t.s, lo, x, p, r);
      case More(l, _, r) => WithRangesRows(t.s, l, Updated(t.s.locks[l].ranges, r));
    }
  }

  lemma WithLockRows(s: State, lo: Owner, x: Other, p: Path, r: LockRange)
    ensures RowsKept(s, WithLock(s, lo, x, p, r))
  {}

  lemma WithRangesRows(s: State, l: Other, ranges: seq<LockRange>)
    requires l in s.locks
    ensures RowsKept(s, WithRanges(s, l, ranges))
  {}

  lemma HalvesKept(m: Phases, e: Event)
    requires HalvesOk(m) && IdsOk(m.w.t.s)
    ensures HalvesOk(Handle(m, e))
  {
    match e
    case Does(step) => StepHalves(m, step, Next(m.w, step));
    case Resolve(_, _, _, _) => ResolveHalves(m, e);
    case Finish(lo) => FinishHalves(m, lo);
  }

  lemma ResolveWorld(m: Phases, e: Event)
    requires WorldOk(m.w) && e.Resolve?
    ensures WorldOk(Handle(m, e).w)
  {
    if CanResolve(m, e.x, e.seqid, e.path, e.sop) {
      StepKept(m.w, Sequenced(e.x, e.seqid, e.path, e.sop));
      assert Next(m.w, Sequenced(e.x, e.seqid, e.path, e.sop)).t == ApplySeq(m.w.t, e.x, e.seqid, e.path, e.sop);
    }
  }

  lemma FinishWorld(m: Phases, lo: Owner, w': World)
    requires PhasesOk(m) && CanFinish(m, lo) && w' == m.w.(t := Finished(m.w.t, lo, m.halves[lo]))
    ensures WorldOk(w') <==> CarefulEvent(m, Finish(lo))
  {
    WorldSafe(m.w);
    WorldSafe(w');
    if FinishStatus(m.w.t.s, lo, m.halves[lo]) == Ok {
      FinishSafeIff(m.w.t, lo, m.halves[lo]);
      FinishRecalls(m.w, lo, m.halves[lo]);
    }
  }

  lemma FinishRecalls(w: World, lo: Owner, half: Half)
    requires half.r.Wf() && AllCanonical(w.t.s) && RecallsOk(w.t.s, w.recalls)
    ensures RecallsOk(Finished(w.t, lo, half).s, w.recalls)
  {
    var s, s' := w.t.s, Finished(w.t, lo, half).s;
    assert s'.delegs == s.delegs && s.next <= s'.next;
  }

  /** From a safe state an event leads to a safe state exactly when it is careful. */
  lemma EventSafeIff(m: Phases, e: Event)
    requires PhasesOk(m)
    ensures PhasesOk(Handle(m, e)) <==> CarefulEvent(m, e)
    ensures WorldOk(Handle(m, e).w) <==> CarefulEvent(m, e)
  {
    HalvesKept(m, e);
    match e
    case Does(step) => StepSafeIff(m.w, step);
    case Resolve(_, _, _, _) => ResolveWorld(m, e);
    case Finish(lo) => if CanFinish(m, lo) { FinishWorld(m, lo, Handle(m, e).w); }
  }

  ghost predicate AllCareful(m: Phases, events: seq<Event>)
    decreases |events|
  {
    events == [] || (CarefulEvent(m, events[0]) && AllCareful(Handle(m, events[0]), events[1..]))
  }

  ghost predicate AllSafe(m: Phases, events: seq<Event>)
    decreases |events|
  {
    WorldOk(m.w) && (events == [] || AllSafe(Handle(m, events[0]), events[1..]))
  }

  /** With LOCK in two sections, a run is safe throughout exactly when each of its events is careful. */
  lemma {:induction false} PhasedRunSafeIff(m: Phases, events: seq<Event>)
    requires PhasesOk(m)
    ensures AllSafe(m, events) <==> AllCareful(m, events)
    ensures AllSafe(m, events) ==> WorldOk(HandleAll(m, events).w)
    decreases |events|
  {
    if events != [] {
      EventSafeIff(m, events[0]);
      if CarefulEvent(m, events[0]) { PhasedRunSafeIff(Handle(m, events[0]), events[1..]); }
    }
  }

  // ---------- second sections that need no care ----------

  /** What the first section found is still where it was found, or gone. */
  ghost predicate AtHome(s: State, half: Half) {
    match half
    case First(x, _, p, _) => x <= s.next && (x in s.opens ==> s.opens[x].path == p)
    case More(l, p, _) => l <= s.next && (l in s.locks ==> s.locks[l].path == p)
  }

  ghost predicate AllAtHome(m: Phases) { forall lo | lo in m.halves :: AtHome(m.w.t.s, m.halves[lo]) }

  /** A commit or a rename is careful, and no rename moves the file of a LOCK between its sections. */
  ghost predicate SparesLocks(m: Phases, e: Event) {
    e.Does? && !Waits(m, e.step) ==>
      && Careful(m.w, e.step)
      && (e.step.RenameTo? ==> forall lo | lo in m.halves :: !Under(e.step.from, m.halves[lo].path))
  }

  lemma HomeFits(s: State, lo: Owner, half: Half)
    requires AllCanonical(s) && HalfOk(s, lo, half) && AtHome(s, half) && FinishStatus(s, lo, half) == Ok
    ensures Fits(s, lo, half)
  {}

  lemma RowsHome(s: State, s': State, half: Half)
    requires AtHome(s, half) && RowsKept(s, s')
    ensures AtHome(s', half)
  {}

  lemma RenameHome(s: State, from: Path, to: Path, half: Half)
    requires AtHome(s, half) && !Under(from, half.path)
    ensures AtHome(Rename(s, from, to), half)
  {}

  lemma StepHome(m: Phases, step: Step, w': World)
    requires AllAtHome(m) && IdsOk(m.w.t.s) && w' == Next(m.w, step)
    requires step.RenameTo? ==> forall lo | lo in m.halves :: !Under(step.from, m.halves[lo].path)
    ensures AllAtHome(m.(w := w'))
  {
    if !step.RenameTo? { StepRows(m.w, step); }
    forall lo | lo in m.halves ensures AtHome(w'.t.s, m.halves[lo]) {
      if !step.RenameTo? {
        RowsHome(m.w.t.s, w'.t.s, m.halves[lo]);
      } else if Enabled(m.w, step) {
        RenameHome(m.w.t.s, step.from, step.to, m.halves[lo]);
      }
    }
  }

  lemma ResolveHome(m: Phases, e: Event)
    requires AllAtHome(m) && IdsOk(m.w.t.s) && e.Resolve?
    ensures AllAtHome(Handle(m, e))
  {
    if CanResolve(m, e.x, e.seqid, e.path, e.sop) {
      var got := Resolved(m.w.t, e.x, e.seqid, e.path, e.sop);
      assert got.Some? ==> AtHome(m.w.t.s, got.value.1);
    }
  }

  lemma FinishHome(m: Phases, lo: Owner)
    requires AllAtHome(m)
    ensures AllAtHome(Handle(m, Finish(lo)))
  {
    if CanFinish(m, lo) {
      FinishRows(m.w.t, lo, m.halves[lo]);
      forall k | k in m.halves && k != lo ensures AtHome(Finished(m.w.t, lo, m.halves[lo]).s, m.halves[k]) {
        RowsHome(m.w.t.s, Finished(m.w.t, lo, m.halves[lo]).s, m.halves[k]);
      }
    }
  }

  /** Such an event is careful, and leaves every LOCK between its sections at home. */
  lemma SparedEvent(m: Phases, e: Event)
    requires PhasesOk(m) && AllAtHome(m) && SparesLocks(m, e)
    ensures CarefulEvent(m, e) && AllAtHome(Handle(m, e))
  {
    match e
    case Does(step) => if !Waits(m, step) { StepHome(m, step, Next(m.w, step)); }
    case Resolve(_, _, _, _) => ResolveHome(m, e);
    case Finish(lo) =>
      FinishHome(m, lo);
      if CanFinish(m, lo) && FinishStatus(m.w.t.s, lo, m.halves[lo]) == Ok { HomeFits(m.w.t.s, lo, m.halves[lo]); }
  }

  ghost predicate AllSpare(m: Phases, events: seq<Event>)
    decreases |events|
  {
    events == [] || (SparesLocks(m, events[0]) && AllSpare(Handle(m, events[0]), events[1..]))
  }

  lemma {:induction false} SparedAreCareful(m: Phases, events: seq<Event>)
    requires PhasesOk(m) && AllAtHome(m) && AllSpare(m, events)
    ensures AllCareful(m, events)
    decreases |events|
  {
    if events != [] {
      SparedEvent(m, events[0]);
      EventSafeIff(m, events[0]);
      SparedAreCareful(Handle(m, events[0]), events[1..]);
    }
  }

  lemma BootOk(lease: nat, recallWait: nat)
    ensures PhasesOk(Boot(lease, recallWait)) && AllAtHome(Boot(lease, recallWait))
  {}

  /**
   With LOCK in two sections: as long as no rename moves a file while a LOCK of it is
   between them, careful commits and renames keep every run safe.
   */
  lemma EveryPhasedRunSafe(lease: nat, recallWait: nat, events: seq<Event>)
    requires AllSpare(Boot(lease, recallWait), events)
    ensures WorldOk(HandleAll(Boot(lease, recallWait), events).w)
  {
    BootOk(lease, recallWait);
    SparedAreCareful(Boot(lease, recallWait), events);
    PhasedRunSafeIff(Boot(lease, recallWait), events);
  }
}
