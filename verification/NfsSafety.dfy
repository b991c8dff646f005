/**
 Exclusion over whole runs: compatible share reservations, exclusive byte-range locks,
 and every lock covered by its open.

 Two steps can break it.  A RENAME puts what it moves beside what is already there without
 a conflict check, and an OPEN commits the access it settled on at its check, although a
 RENAME may since have given its owner a wider open of the path.  Each step is given its
 exact condition, and a run is safe throughout exactly when its steps meet theirs.
 */
module NfsSafety {
  import opened NfsTables
  import opened NfsInvariants
  import opened NfsRuns
  import opened NfsKept

  ghost predicate WorldOk(w: World) { Kept(w) && StateOk(w.t.s) }

  lemma WorldSafe(w: World)
    ensures WorldOk(w) <==> Kept(w) && Safe(w.t)
  {}

  // ---------- one step ----------

  /** A commit and a rename, the two steps that can break exclusion, meet their conditions. */
  ghost predicate Careful(w: World, step: Step) {
    match step
    case OpenEnd(o, _, _) => Enabled(w, step) && OpenStatus(w.t.s, o, w.pending[o]) == Ok ==>
      KeepsBacking(w.t.s, o, w.pending[o])
    case RenameTo(from, to) => Enabled(w, step) ==> MergeOk(w.t.s, from, to)
    case _ => true
  }

  lemma SameSafe(t: Tables, t': Tables)
    requires Safe(t) && t'.s == t.s && t'.cl == t.cl
    ensures Safe(t')
  {}

  lemma ProbeSafe(t: Tables, id: ClientId)
    requires Safe(t)
    ensures Safe(ProbeCallback(t, id))
  {}

  lemma PlainSafe(t: Tables, op: PlainOp)
    requires Safe(t)
    ensures Safe(ApplyPlain(t, op))
  {
    match op {
      case ReturnDeleg(x, n, p) => DelegReturnSafe(t, x, n, p);
      case ReleaseOwner(lo) => ReleaseLockOwnerSafe(t, lo);
      case SweepExpired => SweepSafe(t);
      case _ => ClientOpSafe(t, op);
    }
  }

  lemma ClientOpSafe(t: Tables, op: PlainOp)
    requires Safe(t) && !op.ReturnDeleg? && !op.ReleaseOwner? && !op.SweepExpired?
    ensures Safe(ApplyPlain(t, op))
  {
    match op {
      case Tick(_) => SameSafe(t, ApplyPlain(t, op));
      case SetClient(ownerId, principal) => SetClientIdSafe(t, ownerId, principal);
      case ConfirmClientId(id, ok) => ConfirmClientSafe(t, id, ok);
      case RenewLease(id) => TouchSafe(t, id);
      case CallbackAnswered(id) => ProbeSafe(t, id);
    }
  }

  lemma SeqSafe(t: Tables, x: Other, n: nat, p: Path, op: SeqOp)
    requires Safe(t) && WellFormed(t.s, op)
    ensures Safe(ApplySeq(t, x, n, p, op))
  {
    match op {
      case ConfirmOpen => OpenConfirmSafe(t, x, n, p);
      case Downgrade(access, deny) => OpenDowngradeSafe(t, x, n, p, access, deny);
      case CloseOpen => CloseSafe(t, x, n, p);
      case LockFirst(lo, r) => LockNewSafe(t, x, n, lo, p, r);
      case LockAgain(r) => LockMoreSafe(t, x, n, p, r);
      case Unlock(r) => LockUSafe(t, x, n, p, r);
    }
  }

  lemma BeginSafe(w: World, o: Owner, p: Path, access: Bits, deny: Bits, trunc: bool, pick: Other)
    requires Safe(w.t)
    ensures Safe(Begin(w, o, p, access, deny, trunc, pick).t)
  {
    TouchSafe(w.t, o.client);
  }

  lemma ClearSafe(w: World, o: Owner)
    requires Safe(w.t) && o in w.pending
    ensures Safe(ClearWay(w, o).t)
  {
    RecallSafe(w.t, w.pending[o].path, Some(o.client));
  }

  lemma CommitIff(w: World, o: Owner, ds: bool, pick: Other)
    requires WorldOk(w) && Enabled(w, OpenEnd(o, ds, pick))
    ensures Safe(Next(w, OpenEnd(o, ds, pick)).t) <==> Careful(w, OpenEnd(o, ds, pick))
  {
    if OpenStatus(w.t.s, o, w.pending[o]) == Ok { CommitSafeIff(w.t, o, w.pending[o], ds, pick); }
  }

  lemma RenameIff(w: World, from: Path, to: Path)
    requires WorldOk(w) && Enabled(w, RenameTo(from, to))
    ensures Safe(Next(w, RenameTo(from, to)).t) <==> Careful(w, RenameTo(from, to))
  {
    RenameSafeIff(w.t.s, from, to);
  }

  lemma OtherSafe(w: World, step: Step)
    requires Safe(w.t) && Enabled(w, step) && !step.OpenEnd? && !step.RenameTo?
    ensures Safe(Next(w, step).t)
  {
    match step {
      case Plain(op) => PlainSafe(w.t, op);
      case Sequenced(x, n, p, op) => SeqSafe(w.t, x, n, p, op);
      case OpenBegin(o, p, access, deny, trunc, pick) => BeginSafe(w, o, p, access, deny, trunc, pick);
      case OpenRecall(o) => ClearSafe(w, o);
      case OpenAbort(_) =>
      case Disturb(p, except) => RecallSafe(w.t, p, except);
    }
  }

  /** From a safe state a step leads to a safe state exactly when it is careful. */
  lemma StepSafeIff(w: World, step: Step)
    requires WorldOk(w)
    ensures WorldOk(Next(w, step)) <==> Careful(w, step)
  {
    StepKept(w, step);
    WorldSafe(Next(w, step));
    if Enabled(w, step) {
      match step {
        case OpenEnd(o, ds, pick) => CommitIff(w, o, ds, pick);
        case RenameTo(from, to) => RenameIff(w, from, to);
        case _ => OtherSafe(w, step);
      }
    }
  }

  // ---------- every run ----------

  ghost predicate RunCareful(w: World, steps: seq<Step>) {
    forall i | 0 <= i < |steps| :: Careful(Run(w, steps[..i]), steps[i])
  }

  ghost predicate SafeThroughout(w: World, steps: seq<Step>) {
    forall i | 0 <= i <= |steps| :: WorldOk(Run(w, steps[..i]))
  }

  lemma RunSplit(w: World, steps: seq<Step>, i: nat)
    requires i < |steps|
    ensures Run(w, steps[..i + 1]) == Next(Run(w, steps[..i]), steps[i])
  {
    assert steps[..i + 1][..i] == steps[..i];
  }

  lemma CarefulStep(w: World, step: Step, w': World)
    requires WorldOk(w) && Careful(w, step) && w' == Next(w, step)
    ensures WorldOk(w')
  {
    StepSafeIff(w, step);
  }

  lemma {:induction false} CarefulSafe(w: World, steps: seq<Step>, i: nat)
    requires WorldOk(w) && RunCareful(w, steps) && i <= |steps|
    ensures WorldOk(Run(w, steps[..i]))
  {
    if i > 0 {
      CarefulSafe(w, steps, i - 1);
      RunSplit(w, steps, i - 1);
      CarefulStep(Run(w, steps[..i - 1]), steps[i - 1], Run(w, steps[..i]));
    }
  }

  /** A run is safe throughout exactly when each of its commits and renames is careful. */
  lemma RunSafeIff(w: World, steps: seq<Step>)
    requires WorldOk(w)
    ensures SafeThroughout(w, steps) <==> RunCareful(w, steps)
  {
    if RunCareful(w, steps) {
      forall i | 0 <= i <= |steps| ensures WorldOk(Run(w, steps[..i])) { CarefulSafe(w, steps, i); }
    }
    if SafeThroughout(w, steps) {
      forall i | 0 <= i < |steps| ensures Careful(Run(w, steps[..i]), steps[i]) {
        RunSplit(w, steps, i);
        assert WorldOk(Run(w, steps[..i + 1]));
        StepSafeIff(Run(w, steps[..i]), steps[i]);
      }
    }
  }

  /**
   At the end of every careful run from the empty store: reservations of different owners
   on a path are compatible, no byte is write-locked beside another owner's lock, and
   every lock state stands on a live open whose access covers it.
   */
  lemma EveryRunSafe(lease: nat, recallWait: nat, steps: seq<Step>)
    requires RunCareful(Start(lease, recallWait), steps)
    ensures var w := Run(Start(lease, recallWait), steps);
            && SharesOk(w.t.s.opens) && LocksExclusive(w.t.s.locks) && LocksBacked(w.t.s.opens, w.t.s.locks)
            && WorldOk(w)
  {
    CarefulSafe(Start(lease, recallWait), steps, |steps|);
    assert steps[..|steps|] == steps;
  }

  // ---------- commits that need no care ----------

  /** An OPEN in flight still asks for all that its owner holds on the path. */
  ghost predicate PendingOk(s: State, pending: map<Owner, Pending>) {
    forall o :: o in pending ==> CoversHeld(s, o, pending[o])
  }

  ghost predicate CoversHeld(s: State, o: Owner, q: Pending) {
    forall x :: IsOpenOf(s, q.path, o, x) ==> s.opens[x].access.Within(q.unionAccess)
  }

  /** A rename merges well, and brings no OPEN in flight a wider open of its owner. */
  ghost predicate Spares(w: World, step: Step) {
    step.RenameTo? && Enabled(w, step) ==>
      MergeOk(w.t.s, step.from, step.to) && PendingOk(Rename(w.t.s, step.from, step.to), w.pending)
  }

  lemma PendingKept(s: State, s': State, pending: map<Owner, Pending>, who: Option<Owner>)
    requires PendingOk(s, pending) && OpensBy(s, s', who)
    requires who.Some? ==> who.value !in pending
    ensures PendingOk(s', pending)
  {
    forall o, x | o in pending && IsOpenOf(s', pending[o].path, o, x)
      ensures s'.opens[x].access.Within(pending[o].unionAccess)
    {
      assert IsOpenOf(s, pending[o].path, o, x);
    }
  }

  /** A checked OPEN asks for at least what its owner already holds. */
  lemma BeginCovers(s: State, o: Owner, p: Path, access: Bits, deny: Bits, truncating: bool, pick: Other)
    requires SharesOk(s.opens)
    ensures var q := OpenCheck(s, o, p, access, deny, truncating, pick).0;
            q.Some? ==> q.value.path == p && CoversHeld(s, o, q.value)
  {
    var q := OpenCheck(s, o, p, access, deny, truncating, pick).0;
    if q.Some? {
      forall x | IsOpenOf(s, p, o, x) ensures s.opens[x].access.Within(q.value.unionAccess) {
        var held := FindOpen(s, p, o, pick);
        assert held.Some? && held.value == x;
      }
    }
  }

  lemma BeginPending(w: World, o: Owner, p: Path, access: Bits, deny: Bits, truncating: bool, pick: Other)
    requires PendingOk(w.t.s, w.pending) && SharesOk(w.t.s.opens)
    ensures var w' := Begin(w, o, p, access, deny, truncating, pick); PendingOk(w'.t.s, w'.pending)
  {
    BeginCovers(w.t.s, o, p, access, deny, truncating, pick);
  }

  lemma ClearPending(w: World, o: Owner)
    requires PendingOk(w.t.s, w.pending) && o in w.pending
    ensures PendingOk(ClearWay(w, o).t.s, ClearWay(w, o).pending)
  {
    RecallEvolves(w.t, w.pending[o].path, Some(o.client));
    PendingKept(w.t.s, Recall(w.t, w.pending[o].path, Some(o.client)).0.s, w.pending, None);
  }

  lemma StepPending(w: World, step: Step)
    requires PendingOk(w.t.s, w.pending) && SharesOk(w.t.s.opens) && Spares(w, step)
    ensures PendingOk(Next(w, step).t.s, Next(w, step).pending)
  {
    if Enabled(w, step) {
      var w' := Perform(w, step);
      match step {
        case OpenBegin(o, p, access, deny, trunc, pick) => BeginPending(w, o, p, access, deny, trunc, pick);
        case OpenRecall(o) => ClearPending(w, o);
        case OpenEnd(o, ds, pick) =>
          CommitEvolves(w.t, o, w.pending[o], ds, pick);
          PendingKept(w.t.s, w'.t.s, w.pending - {o}, Some(o));
        case Plain(op) =>
          PlainEvolves(w.t, op);
          PendingKept(w.t.s, w'.t.s, w.pending, None);
        case Sequenced(x, n, p, op) =>
          SeqEvolves(w.t, x, n, p, op);
          PendingKept(w.t.s, w'.t.s, w.pending, SeqOwner(w.t.s, x));
        case Disturb(p, except) =>
          RecallEvolves(w.t, p, except);
          PendingKept(w.t.s, w'.t.s, w.pending, None);
        case OpenAbort(_) =>
        case RenameTo(_, _) =>
      }
    }
  }

  lemma CoveredCareful(w: World, step: Step)
    requires WorldOk(w) && PendingOk(w.t.s, w.pending) && Spares(w, step)
    ensures Careful(w, step)
  {
    if step.OpenEnd? && Enabled(w, step) {
      var q := w.pending[step.o];
      forall x | IsOpenOf(w.t.s, q.path, step.o, x) ensures !LocksBlockDowngrade(w.t.s, x, q.unionAccess) {
        WiderAccess(w.t.s.opens, w.t.s.locks, x, q.unionAccess);
      }
    }
  }

  lemma SparedStep(w: World, step: Step, w': World)
    requires WorldOk(w) && PendingOk(w.t.s, w.pending) && Spares(w, step) && w' == Next(w, step)
    ensures WorldOk(w') && PendingOk(w'.t.s, w'.pending)
  {
    CoveredCareful(w, step);
    StepSafeIff(w, step);
    StepPending(w, step);
  }

  ghost predicate AllSpare(w: World, steps: seq<Step>) {
    forall k | 0 <= k < |steps| :: Spares(Run(w, steps[..k]), steps[k])
  }

  /** With such renames only, and so with none at all, every commit is careful and the run is safe. */
  lemma {:induction false} SparedRunSafe(w: World, steps: seq<Step>, i: nat)
    requires WorldOk(w) && PendingOk(w.t.s, w.pending) && i <= |steps|
    requires AllSpare(w, steps)
    ensures WorldOk(Run(w, steps[..i])) && PendingOk(Run(w, steps[..i]).t.s, Run(w, steps[..i]).pending)
  {
    if i > 0 {
      SparedRunSafe(w, steps, i - 1);
      RunSplit(w, steps, i - 1);
      assert Spares(Run(w, steps[..i - 1]), steps[i - 1]);
      SparedStep(Run(w, steps[..i - 1]), steps[i - 1], Run(w, steps[..i]));
    }
  }

  // ---------- one open per owner and path ----------

  /** A rename, the one step that can give an owner two opens of a path, does not. */
  ghost predicate KeepsUnique(w: World, step: Step) {
    step.RenameTo? && Enabled(w, step) ==> OwnersApart(w.t.s.opens, step.from, step.to)
  }

  /** No open is new or has another path or owner. */
  ghost predicate SameNames(opens: map<Other, Open>, opens': map<Other, Open>) {
    forall x :: x in opens' ==> x in opens && opens'[x].path == opens[x].path && opens'[x].owner == opens[x].owner
  }

  lemma NamesUnique(opens: map<Other, Open>, opens': map<Other, Open>)
    requires UniqueOpens(opens) && SameNames(opens, opens')
    ensures UniqueOpens(opens')
  {}

  lemma PlainNames(t: Tables, op: PlainOp)
    ensures SameNames(t.s.opens, ApplyPlain(t, op).s.opens)
  {
    PlainEvolves(t, op);
  }

  lemma SeqNames(t: Tables, x: Other, n: nat, p: Path, op: SeqOp)
    requires WellFormed(t.s, op)
    ensures SameNames(t.s.opens, ApplySeq(t, x, n, p, op).s.opens)
  {
    SeqHasEffect(t, x, n, p, op);
    EffectNames(t, ApplySeq(t, x, n, p, op), x);
  }

  lemma EffectNames(t: Tables, t': Tables, x: Other)
    requires SeqEffect(t, t', x)
    ensures SameNames(t.s.opens, t'.s.opens)
  {
    if access: Bits, deny: Bits :| Narrowed(t.s, t'.s, x, access, deny) {
      SharesNames(t.s, x, access, deny);
    } else if x in t.s.opens && t'.s == WithoutOpen(t.s, x) {
    } else {
      assert t'.s.opens == t.s.opens;
    }
  }

  lemma SharesNames(s: State, x: Other, access: Bits, deny: Bits)
    requires x in s.opens
    ensures SameNames(s.opens, WithShares(s, x, access, deny).opens)
  {}

  lemma PlaceUnique(s: State, o: Owner, q: Pending, pick: Other)
    requires UniqueOpens(s.opens)
    ensures UniqueOpens(PlaceOpen(s, o, q, pick).opens)
  {
    match FindOpen(s, q.path, o, pick) {
      case None => AddUnique(s.opens, s.next + 1, Open(1, o, q.path, q.unionAccess, q.unionDeny)) by {
        forall x | x in s.opens && s.opens[x].path == q.path ensures s.opens[x].owner != o {
          assert !IsOpenOf(s, q.path, o, x);
        }
      }
      case Some(x) =>
        SharesNames(s, x, q.unionAccess, q.unionDeny);
        NamesUnique(s.opens, PlaceOpen(s, o, q, pick).opens);
    }
  }

  lemma AddUnique(opens: map<Other, Open>, x: Other, o: Open)
    requires UniqueOpens(opens) && forall y | y in opens && opens[y].path == o.path :: opens[y].owner != o.owner
    ensures UniqueOpens(opens[x := o])
  {}

  lemma CommitUnique(t: Tables, o: Owner, q: Pending, ds: bool, pick: Other)
    requires UniqueOpens(t.s.opens)
    ensures UniqueOpens(OpenCommit(t, o, q, ds, pick).0.s.opens)
  {
    PlaceUnique(t.s, o, q, pick);
  }

  lemma StepUniqueIff(w: World, step: Step)
    requires UniqueOpens(w.t.s.opens)
    ensures UniqueOpens(Next(w, step).t.s.opens) <==> KeepsUnique(w, step)
  {
    if Enabled(w, step) {
      match step {
        case Plain(op) =>
          PlainNames(w.t, op);
          NamesUnique(w.t.s.opens, ApplyPlain(w.t, op).s.opens);
        case Sequenced(x, n, p, op) =>
          SeqNames(w.t, x, n, p, op);
          NamesUnique(w.t.s.opens, ApplySeq(w.t, x, n, p, op).s.opens);
        case OpenEnd(o, ds, pick) => CommitUnique(w.t, o, w.pending[o], ds, pick);
        case RenameTo(from, to) => RenameUnique(w.t.s.opens, from, to);
        case _ =>
      }
    }
  }

  ghost predicate RunUnique(w: World, steps: seq<Step>) {
    forall i | 0 <= i < |steps| :: KeepsUnique(Run(w, steps[..i]), steps[i])
  }

  lemma UniquePrefix(w: World, steps: seq<Step>)
    requires steps != [] && RunUnique(w, steps)
    ensures RunUnique(w, steps[..|steps|-1]) && KeepsUnique(Run(w, steps[..|steps|-1]), steps[|steps|-1])
  {
    var most := steps[..|steps|-1];
    forall i | 0 <= i < |most| ensures KeepsUnique(Run(w, most[..i]), most[i]) {
      assert most[..i] == steps[..i] && most[i] == steps[i];
    }
  }

  lemma {:induction false} RunStaysUnique(w: World, steps: seq<Step>)
    requires UniqueOpens(w.t.s.opens) && RunUnique(w, steps)
    ensures UniqueOpens(Run(w, steps).t.s.opens)
  {
    if steps != [] {
      UniquePrefix(w, steps);
      RunStaysUnique(w, steps[..|steps|-1]);
      StepUniqueIff(Run(w, steps[..|steps|-1]), steps[|steps|-1]);
    }
  }

  /** A careful run gives no owner two opens of a path. */
  lemma CarefulUnique(w: World, steps: seq<Step>)
    requires RunCareful(w, steps)
    ensures RunUnique(w, steps)
  {
    forall i | 0 <= i < |steps| ensures KeepsUnique(Run(w, steps[..i]), steps[i]) {
      assert Careful(Run(w, steps[..i]), steps[i]);
    }
  }

  lemma UniqueFound(s: State, p: Path, o: Owner, pick: Other, pick': Other)
    requires UniqueOpens(s.opens)
    ensures FindOpen(s, p, o, pick) == FindOpen(s, p, o, pick')
  {}

  /** Where every owner has one open per path, a request does the same whichever it would prefer. */
  lemma PickIrrelevant(w: World, a: Step, b: Step)
    requires UniqueOpens(w.t.s.opens) && SameRequest(a, b)
    ensures Next(w, a) == Next(w, b)
  {
    if a.OpenBegin? { BeginPick(w, a, b); }
    if a.OpenEnd? { EndPick(w, a, b); }
  }

  lemma BeginPick(w: World, a: Step, b: Step)
    requires UniqueOpens(w.t.s.opens) && SameRequest(a, b) && a.OpenBegin?
    ensures Next(w, a) == Next(w, b)
  {
    UniqueFound(w.t.s, a.path, a.o, a.pick, b.pick);
  }

  lemma EndPick(w: World, a: Step, b: Step)
    requires UniqueOpens(w.t.s.opens) && SameRequest(a, b) && a.OpenEnd?
    ensures Next(w, a) == Next(w, b)
  {
    if Enabled(w, a) { UniqueFound(w.t.s, w.pending[a.o].path, a.o, a.pick, b.pick); }
  }

  lemma {:induction false} PicksIrrelevant(w: World, steps: seq<Step>, done: seq<Step>)
    requires UniqueOpens(w.t.s.opens) && RunUnique(w, steps) && SameRequests(steps, done)
    ensures Run(w, done) == Run(w, steps)
  {
    if steps != [] {
      var most := steps[..|steps|-1];
      UniquePrefix(w, steps);
      PicksIrrelevant(w, most, done[..|done|-1]);
      RunStaysUnique(w, most);
      PickIrrelevant(Run(w, most), steps[|steps|-1], done[|done|-1]);
    }
  }
}
