/**
 Whole runs of the NFSv4 state machine.

 Every operation is one step, except OPEN, which the server splits into a check, a
 recall and a commit with the state mutex dropped between them: those are three
 steps, and any steps may come between, except the owner's own requests: its
 sequence mutex is held throughout.  LOCK, too, drops the mutex once; `NfsLockPhases` has
 the runs in which something comes between its two sections.
 */
module NfsRuns {
  import opened LockRanges
  import opened NfsTables
  import opened NfsInvariants

  /** `pending` are OPENs in flight; `recalls` counts the CB_RECALLs sent per delegation. */
  datatype World = World(t: Tables, pending: map<Owner, Pending>, recalls: multiset<Other>)

  /** Operations that carry no sequence id. */
  datatype PlainOp =
    | Tick(d: nat)
    | SetClient(ownerId: string, principal: string)
    | ConfirmClientId(id: ClientId, verifierOk: bool)
    | RenewLease(id: ClientId)
    | CallbackAnswered(id: ClientId)
    | ReturnDeleg(x: Other, seqid: nat, path: Path)
    | ReleaseOwner(lo: Owner)
    | SweepExpired

  /** Operations on a stateid, run under the mutex of the owner that sequences it. */
  datatype SeqOp =
    | ConfirmOpen
    | Downgrade(access: Bits, deny: Bits)
    | CloseOpen
    | LockFirst(lo: Owner, r: LockRange)
    | LockAgain(r: LockRange)
    | Unlock(r: LockRange)

  datatype Step =
    | Plain(op: PlainOp)
    | Sequenced(x: Other, seqid: nat, path: Path, sop: SeqOp)
    | OpenBegin(o: Owner, path: Path, access: Bits, deny: Bits, truncating: bool, pick: Other)
    | OpenRecall(o: Owner)
    | OpenEnd(o: Owner, delegations: bool, pick: Other)
    | OpenAbort(o: Owner)
    | Disturb(path: Path, except: Option<ClientId>)
    | RenameTo(from: Path, to: Path)

  /** The same request, whichever of several opens of one owner on one path it found. */
  predicate SameRequest(a: Step, b: Step) { Unpicked(a) == Unpicked(b) }

  ghost predicate SameRequests(a: seq<Step>, b: seq<Step>) {
    |a| == |b| && forall i | 0 <= i < |a| :: SameRequest(a[i], b[i])
  }

  function Unpicked(step: Step): Step { if step.OpenBegin? || step.OpenEnd? then step.(pick := 0) else step }

  /** The wire format gives a sequenced operation a well-formed range and a lock-owner. */
  ghost predicate WellFormed(s: State, op: SeqOp) {
    match op
    case LockFirst(lo, r) => lo.kind == LockOwner && r.Wf()
    case LockAgain(r) => r.Wf() && AllCanonical(s)
    case Unlock(r) => r.Wf() && AllCanonical(s)
    case _ => true
  }

  ghost function ApplyPlain(t: Tables, op: PlainOp): Tables {
    match op
    case Tick(d) => t.(now := t.now + d)
    case SetClient(ownerId, principal) => SetClientId(t, ownerId, principal).0
    case ConfirmClientId(id, ok) => ConfirmClient(t, id, ok).0
    case RenewLease(id) => Renew(t, id).0
    case CallbackAnswered(id) => ProbeCallback(t, id)
    case ReturnDeleg(x, n, p) => DelegReturn(t, x, n, p).0
    case ReleaseOwner(lo) => ReleaseLockOwner(t, lo).0
    case SweepExpired => Sweep(t)
  }

  ghost function ApplySeq(t: Tables, x: Other, n: nat, p: Path, op: SeqOp): Tables
    requires WellFormed(t.s, op)
  {
    match op
    case ConfirmOpen => OpenConfirm(t, x, n, p).0
    case Downgrade(access, deny) => OpenDowngrade(t, x, n, p, access, deny).0
    case CloseOpen => Close(t, x, n, p).0
    case LockFirst(lo, r) => LockNew(t, x, n, lo, p, r).0
    case LockAgain(r) => LockMore(t, x, n, p, r).0
    case Unlock(r) => LockU(t, x, n, p, r).0
  }

  /** The owner that sequences `x` has no OPEN in flight. */
  ghost predicate Idle(w: World, x: Other) {
    var o := SeqOwner(w.t.s, x);
    o.Some? ==> o.value !in w.pending
  }

  /**
   A request that cannot run yet, or that the wire format excludes, waits.  RENAME refuses
   to put a directory into itself or onto one that is not empty, and does nothing to a
   name renamed to itself, so the names that reach the tables are incomparable.
   */
  ghost predicate Enabled(w: World, step: Step) {
    match step
    case Plain(_) => true
    case Sequenced(x, _, _, op) => Idle(w, x) && WellFormed(w.t.s, op)
    case OpenBegin(o, _, _, _, _, _) => o.kind == OpenOwner && o.client in w.t.cl.confirmed && o !in w.pending
    case OpenRecall(o) => o in w.pending && !w.pending[o].cleared
    case OpenEnd(o, _, _) => o in w.pending && w.pending[o].cleared
    case OpenAbort(_) => true
    case Disturb(_, _) => true
    case RenameTo(from, to) => Incomparable(from, to)
  }

  ghost function Begin(w: World, o: Owner, p: Path, access: Bits, deny: Bits, truncating: bool, pick: Other): World {
    var t := Touch(w.t, o.client);
    match OpenCheck(t.s, o, p, access, deny, truncating, pick).0
    case None => w.(t := t)
    case Some(q) => w.(t := t, pending := w.pending[o := q])
  }

  ghost function RecallFor(w: World, p: Path, except: Option<ClientId>): World {
    w.(t := Recall(w.t, p, except).0, recalls := w.recalls + multiset(RecallJobs(w.t.s, p, except)))
  }

  ghost function ClearWay(w: World, o: Owner): World
    requires o in w.pending
  {
    var q := w.pending[o];
    if !NeedsRecall(q) then w.(pending := w.pending[o := q.(cleared := true)])
    else
      var w1 := RecallFor(w, q.path, Some(o.client));
      if Recall(w.t, q.path, Some(o.client)).1 == Ok then w1.(pending := w.pending[o := q.(cleared := true)])
      else w1.(pending := w.pending - {o})
  }

  ghost function Perform(w: World, step: Step): World
    requires Enabled(w, step)
  {
    match step
    case Plain(op) => w.(t := ApplyPlain(w.t, op))
    case Sequenced(x, n, p, op) => w.(t := ApplySeq(w.t, x, n, p, op))
    case OpenBegin(o, p, access, deny, trunc, pick) => Begin(w, o, p, access, deny, trunc, pick)
    case OpenRecall(o) => ClearWay(w, o)
    case OpenEnd(o, ds, pick) => w.(t := OpenCommit(w.t, o, w.pending[o], ds, pick).0, pending := w.pending - {o})
    case OpenAbort(o) => w.(pending := w.pending - {o})
    case Disturb(p, except) => RecallFor(w, p, except)
    case RenameTo(from, to) => w.(t := w.t.(s := Rename(w.t.s, from, to)))
  }

  ghost function Next(w: World, step: Step): World {
    if Enabled(w, step) then Perform(w, step) else w
  }

  ghost function Run(w: World, steps: seq<Step>): World {
    if steps == [] then w else Next(Run(w, steps[..|steps|-1]), steps[|steps|-1])
  }

  function Start(lease: nat, recallWait: nat): World {
    World(Init(lease, recallWait), map[], multiset{})
  }

  // ---------- how steps change the tables ----------

  /** Ids only grow, nothing retired comes back, and recall marks stay. */
  ghost predicate Evolves(s: State, s': State) {
    && s.next <= s'.next
    && (forall x :: x in s'.opens && x <= s.next ==> x in s.opens)
    && (forall x :: x in s'.locks && x <= s.next ==> x in s.locks)
    && (forall d :: d in s'.delegs && d <= s.next ==> d in s.delegs && MarkKept(s.delegs[d], s'.delegs[d]))
  }

  ghost predicate MarkKept(d: Deleg, d': Deleg) {
    d.recalling ==> d'.recalling && d'.recallAt == d.recallAt
  }

  /** Only `o`'s opens are new or changed. */
  ghost predicate OpensBy(s: State, s': State, o: Option<Owner>) {
    forall x :: x in s'.opens && Some(s'.opens[x].owner) != o ==> x in s.opens && s'.opens[x] == s.opens[x]
  }

  lemma EvolvesTrans(s: State, s': State, s'': State)
    requires Evolves(s, s') && Evolves(s', s'')
    ensures Evolves(s, s'')
  {}

  lemma GoneForGood(s: State, s': State, x: Other)
    requires Evolves(s, s') && Gone(s, x)
    ensures Gone(s', x)
  {}

  // ---------- the effects evolve the state ----------

  lemma WithOpenEvolves(s: State, o: Owner, q: Pending)
    ensures Evolves(s, WithOpen(s, o, q)) && OpensBy(s, WithOpen(s, o, q), Some(o))
  {}

  lemma WithSharesEvolves(s: State, x: Other, access: Bits, deny: Bits)
    requires x in s.opens
    ensures Evolves(s, WithShares(s, x, access, deny))
    ensures OpensBy(s, WithShares(s, x, access, deny), Some(s.opens[x].owner))
  {}

  lemma WithoutOpenEvolves(s: State, x: Other)
    requires x in s.opens
    ensures Evolves(s, WithoutOpen(s, x)) && OpensBy(s, WithoutOpen(s, x), None)
  {}

  lemma WithLockEvolves(s: State, lo: Owner, x: Other, p: Path, r: LockRange)
    ensures Evolves(s, WithLock(s, lo, x, p, r))
  {}

  lemma WithRangesEvolves(s: State, l: Other, ranges: seq<LockRange>)
    requires l in s.locks
    ensures Evolves(s, WithRanges(s, l, ranges))
  {}

  lemma PlaceOpenEvolves(s: State, o: Owner, q: Pending, pick: Other)
    ensures Evolves(s, PlaceOpen(s, o, q, pick)) && OpensBy(s, PlaceOpen(s, o, q, pick), Some(o))
    ensures PlaceOpen(s, o, q, pick).delegs == s.delegs
  {
    match FindOpen(s, q.path, o, pick) {
      case None => WithOpenEvolves(s, o, q);
      case Some(x) => WithSharesEvolves(s, x, q.unionAccess, q.unionDeny);
    }
  }

  lemma CommitEvolves(t: Tables, o: Owner, q: Pending, delegations: bool, pick: Other)
    ensures Evolves(t.s, OpenCommit(t, o, q, delegations, pick).0.s)
    ensures OpensBy(t.s, OpenCommit(t, o, q, delegations, pick).0.s, Some(o))
  {
    if OpenStatus(t.s, o, q) == Ok {
      var s1 := PlaceOpen(t.s, o, q, pick);
      PlaceOpenEvolves(t.s, o, q, pick);
      var s2 := if delegations then Grant(t.cl, s1, q.path, o, q.unionAccess) else s1;
      assert Evolves(s1, s2) && OpensBy(t.s, s2, Some(o));
      EvolvesTrans(t.s, s1, s2);
      TouchSafe(t.(s := s2), o.client);
    }
  }

  lemma WithoutStateEvolves(s: State, dead: set<ClientId>)
    ensures Evolves(s, WithoutStateOf(s, dead)) && OpensBy(s, WithoutStateOf(s, dead), None)
  {}

  lemma ConfirmEvolves(t: Tables, id: ClientId, ok: bool)
    ensures Evolves(t.s, ConfirmClient(t, id, ok).0.s) && OpensBy(t.s, ConfirmClient(t, id, ok).0.s, None)
  {
    if id in t.cl.unconfirmed && id in t.cl.all && ok {
      var owner := t.cl.all[id].ownerId;
      if owner in t.cl.byOwner { WithoutStateEvolves(t.s, {t.cl.byOwner[owner]}); }
    }
  }

  lemma SweepEvolves(t: Tables)
    ensures Evolves(t.s, Sweep(t).s) && OpensBy(t.s, Sweep(t).s, None)
  {
    var s1 := SweptTombs(t.s, t.lease, t.now);
    var s2 := Revoke(s1, ForfeitOf(s1, s1.delegs.Keys, t.now, t.recallWait), t.now);
    var t2 := t.(cl := SweptClients(t.cl, t.lease, t.now), s := s2);
    var s3 := Tombstoned(s2, LapsedClients(t2), t.now);
    assert Evolves(t.s, s3) && s3.opens == t.s.opens;
    WithoutStateEvolves(s3, LapsedClients(t2));
    EvolvesTrans(t.s, s3, Sweep(t).s);
  }

  lemma RecallEvolves(t: Tables, p: Path, except: Option<ClientId>)
    ensures Evolves(t.s, Recall(t, p, except).0.s) && Recall(t, p, except).0.s.opens == t.s.opens
  {}

  lemma PlainEvolves(t: Tables, op: PlainOp)
    ensures Evolves(t.s, ApplyPlain(t, op).s) && OpensBy(t.s, ApplyPlain(t, op).s, None)
  {
    match op {
      case ConfirmClientId(id, ok) => ConfirmEvolves(t, id, ok);
      case SweepExpired => SweepEvolves(t);
      case _ =>
    }
  }

  /** A sequenced operation leaves the clock and the confirmed clients alone. */
  ghost predicate SameFrame(t: Tables, t': Tables) {
    t'.now == t.now && t'.lease == t.lease && t'.recallWait == t.recallWait && t'.cl.confirmed == t.cl.confirmed
  }

  lemma TouchOwnerFrame(t: Tables, x: Other)
    ensures SameFrame(t, TouchOwner(t, x)) && TouchOwner(t, x).s == t.s
  {}

  lemma ConfirmEffect(t: Tables, x: Other, n: nat, p: Path)
    ensures var t' := OpenConfirm(t, x, n, p).0;
            SameFrame(t, t') && t'.s == t.s.(okOwners := t'.s.okOwners)
  {
    TouchOwnerFrame(t, x);
  }

  lemma DowngradeEffect(t: Tables, x: Other, n: nat, p: Path, access: Bits, deny: Bits)
    ensures var t' := OpenDowngrade(t, x, n, p, access, deny).0;
            && SameFrame(t, t')
            && (t'.s == t.s || (x in t.s.opens && access.Within(t.s.opens[x].access) && deny.Within(t.s.opens[x].deny)
                                && t'.s == WithShares(t.s, x, access, deny)))
  {
    TouchOwnerFrame(t, x);
  }

  lemma CloseEffect(t: Tables, x: Other, n: nat, p: Path)
    ensures var t' := Close(t, x, n, p).0;
            SameFrame(t, t') && (t'.s == t.s || (x in t.s.opens && t'.s == WithoutOpen(t.s, x)))
  {
    TouchOwnerFrame(t, x);
  }

  lemma LockNewEffect(t: Tables, x: Other, n: nat, lo: Owner, p: Path, r: LockRange)
    ensures var t' := LockNew(t, x, n, lo, p, r).0;
            && SameFrame(t, t')
            && (t'.s == t.s || (LockNewStatus(t.s, x, n, lo, p, r) == Ok && t'.s == WithLock(t.s, lo, x, p, r)))
  {}

  lemma LockMoreEffect(t: Tables, x: Other, n: nat, p: Path, r: LockRange)
    requires r.Wf() && AllCanonical(t.s)
    ensures var t' := LockMore(t, x, n, p, r).0;
            && SameFrame(t, t')
            && (t'.s == t.s || (x in t.s.locks && t'.s == WithRanges(t.s, x, Updated(t.s.locks[x].ranges, r))))
  {
    TouchOwnerFrame(t, x);
  }

  lemma LockUEffect(t: Tables, x: Other, n: nat, p: Path, r: LockRange)
    requires r.Wf() && AllCanonical(t.s)
    ensures var t' := LockU(t, x, n, p, r).0;
            && SameFrame(t, t')
            && (t'.s == t.s || (x in t.s.locks && t'.s == WithRanges(t.s, x, Erased(t.s.locks[x].ranges, r))))
  {
    TouchOwnerFrame(t, x);
  }

  /** Everything a sequenced operation can do to the tables. */
  ghost predicate SeqEffect(t: Tables, t': Tables, x: Other) {
    && SameFrame(t, t')
    && (|| t'.s == t.s.(okOwners := t'.s.okOwners)
        || (x in t.s.opens && t'.s == WithoutOpen(t.s, x))
        || (exists access: Bits, deny: Bits :: Narrowed(t.s, t'.s, x, access, deny))
        || (exists lo: Owner, p: Path, r: LockRange :: Locked(t.s, t'.s, lo, x, p, r))
        || (exists ranges: seq<LockRange> :: Ranged(t.s, t'.s, x, ranges)))
  }

  ghost predicate Narrowed(s: State, s': State, x: Other, access: Bits, deny: Bits) {
    && x in s.opens && access.Within(s.opens[x].access) && deny.Within(s.opens[x].deny)
    && s' == WithShares(s, x, access, deny)
  }

  ghost predicate Locked(s: State, s': State, lo: Owner, x: Other, p: Path, r: LockRange) {
    && x in s.opens && s.opens[x].path == p && s.opens[x].owner.client == lo.client && lo.kind == LockOwner && r.Wf()
    && s' == WithLock(s, lo, x, p, r)
  }

  ghost predicate Ranged(s: State, s': State, x: Other, ranges: seq<LockRange>) {
    x in s.locks && Canonical(ranges) && s' == WithRanges(s, x, ranges)
  }

  lemma SeqHasEffect(t: Tables, x: Other, n: nat, p: Path, op: SeqOp)
    requires WellFormed(t.s, op)
    ensures SeqEffect(t, ApplySeq(t, x, n, p, op), x)
  {
    match op {
      case ConfirmOpen => ConfirmEffect(t, x, n, p);
      case Downgrade(access, deny) =>
        DowngradeEffect(t, x, n, p, access, deny);
        assert ApplySeq(t, x, n, p, op).s != t.s ==> Narrowed(t.s, ApplySeq(t, x, n, p, op).s, x, access, deny);
      case CloseOpen => CloseEffect(t, x, n, p);
      case LockFirst(lo, r) =>
        LockNewEffect(t, x, n, lo, p, r);
        assert ApplySeq(t, x, n, p, op).s != t.s ==> Locked(t.s, ApplySeq(t, x, n, p, op).s, lo, x, p, r);
      case LockAgain(r) =>
        LockMoreEffect(t, x, n, p, r);
        assert ApplySeq(t, x, n, p, op).s != t.s ==>
            Ranged(t.s, ApplySeq(t, x, n, p, op).s, x, Updated(t.s.locks[x].ranges, r));
      case Unlock(r) =>
        LockUEffect(t, x, n, p, r);
        assert ApplySeq(t, x, n, p, op).s != t.s ==>
            Ranged(t.s, ApplySeq(t, x, n, p, op).s, x, Erased(t.s.locks[x].ranges, r));
    }
  }

  lemma OwnersEvolve(s: State, s': State, o: Option<Owner>)
    requires s' == s.(okOwners := s'.okOwners)
    ensures Evolves(s, s') && OpensBy(s, s', o)
  {}

  lemma EffectEvolves(t: Tables, t': Tables, x: Other)
    requires SeqEffect(t, t', x)
    ensures Evolves(t.s, t'.s) && OpensBy(t.s, t'.s, SeqOwner(t.s, x))
  {
    if t'.s == t.s.(okOwners := t'.s.okOwners) {
      OwnersEvolve(t.s, t'.s, SeqOwner(t.s, x));
    } else if x in t.s.opens && t'.s == WithoutOpen(t.s, x) {
      WithoutOpenEvolves(t.s, x);
    } else if access: Bits, deny: Bits :| Narrowed(t.s, t'.s, x, access, deny) {
      WithSharesEvolves(t.s, x, access, deny);
    } else {
      LockingEvolves(t.s, t'.s, x);
    }
  }

  lemma LockingEvolves(s: State, s': State, x: Other)
    requires (exists lo: Owner, p: Path, r: LockRange :: Locked(s, s', lo, x, p, r))
          || (exists ranges: seq<LockRange> :: Ranged(s, s', x, ranges))
    ensures Evolves(s, s') && OpensBy(s, s', SeqOwner(s, x))
  {
    if lo: Owner, p: Path, r: LockRange :| Locked(s, s', lo, x, p, r) {
      WithLockEvolves(s, lo, x, p, r);
    } else {
      var ranges :| Ranged(s, s', x, ranges);
      WithRangesEvolves(s, x, ranges);
    }
  }

  lemma SeqEvolves(t: Tables, x: Other, n: nat, p: Path, op: SeqOp)
    requires WellFormed(t.s, op)
    ensures Evolves(t.s, ApplySeq(t, x, n, p, op).s) && OpensBy(t.s, ApplySeq(t, x, n, p, op).s, SeqOwner(t.s, x))
  {
    SeqHasEffect(t, x, n, p, op);
    EffectEvolves(t, ApplySeq(t, x, n, p, op), x);
  }

  lemma ClearEvolves(w: World, o: Owner)
    requires o in w.pending
    ensures Evolves(w.t.s, ClearWay(w, o).t.s) && ClearWay(w, o).t.s.opens == w.t.s.opens
  {
    RecallEvolves(w.t, w.pending[o].path, Some(o.client));
  }

  lemma RenameEvolves(s: State, from: Path, to: Path)
    ensures Evolves(s, Rename(s, from, to))
  {}

  /** No step brings a retired stateid back or takes a recall mark off. */
  lemma StepEvolves(w: World, step: Step)
    ensures Evolves(w.t.s, Next(w, step).t.s)
  {
    if Enabled(w, step) {
      match step {
        case Plain(op) => PlainEvolves(w.t, op);
        case Sequenced(x, n, p, op) => SeqEvolves(w.t, x, n, p, op);
        case OpenRecall(o) => ClearEvolves(w, o);
        case OpenEnd(o, ds, pick) => CommitEvolves(w.t, o, w.pending[o], ds, pick);
        case Disturb(p, except) => RecallEvolves(w.t, p, except);
        case RenameTo(from, to) => RenameEvolves(w.t.s, from, to);
        case OpenBegin(_, _, _, _, _, _) =>
        case OpenAbort(_) =>
      }
    }
  }

  lemma RunEvolves(w: World, steps: seq<Step>)
    ensures Evolves(w.t.s, Run(w, steps).t.s)
  {
    if steps != [] {
      var w' := Run(w, steps[..|steps|-1]);
      RunEvolves(w, steps[..|steps|-1]);
      StepEvolves(w', steps[|steps|-1]);
      EvolvesTrans(w.t.s, w'.t.s, Run(w, steps).t.s);
    }
  }

  /** A stateid that has left the live tables never resolves again, in any later state. */
  lemma {:induction false} GoneNeverResolves(w: World, steps: seq<Step>, x: Other, seqid: nat, p: Path)
    requires Gone(w.t.s, x)
    ensures var s := Run(w, steps).t.s;
            && ResolveOpen(s, x, seqid, p) != Ok && ResolveLock(s, x, seqid, p) != Ok
            && ResolveDeleg(s, x, seqid, p) != Ok && ResolveIO(s, x, seqid, p) != Ok
  {
    RunEvolves(w, steps);
    GoneForGood(w.t.s, Run(w, steps).t.s, x);
  }
}
