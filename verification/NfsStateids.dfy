/**
 Sequence numbers of stateids over runs (nfs4/state.go, resolveStateid; nfs4/ops_lock.go,
 resolveLockStateid; section 9.1.4 of RFC 7530).

 Every successful change to an open or lock state moves its 32-bit number on by one, so
 a request that still carries an earlier number is refused, until the number has gone
 all the way round.
 */
module NfsStateids {
  import opened LockRanges
  import opened NfsTables
  import opened NfsInvariants
  import opened NfsRuns
  import opened NfsKept
  import opened NfsDelegations
  import opened Words

  ghost predicate Follows(n: nat, n': nat) { n' == n || n' == Inc(n) }

  /** Every open and lock that was there before has the same number or the next. */
  ghost predicate Counts(s: State, s': State) {
    && s.next <= s'.next
    && (forall x | x in s'.opens && x <= s.next :: x in s.opens && Follows(s.opens[x].seqid, s'.opens[x].seqid))
    && (forall x | x in s'.locks && x <= s.next :: x in s.locks && Follows(s.locks[x].seqid, s'.locks[x].seqid))
  }

  // ---------- one step ----------

  lemma SameCounts(s: State, s': State)
    requires s'.opens == s.opens && s'.locks == s.locks && s.next <= s'.next
    ensures Counts(s, s')
  {}

  lemma PlainCounts(t: Tables, op: PlainOp)
    ensures Counts(t.s, ApplyPlain(t, op).s)
  {}

  lemma EffectCounts(t: Tables, t': Tables, x: Other)
    requires SeqEffect(t, t', x)
    ensures Counts(t.s, t'.s)
  {
    if t'.s == t.s.(okOwners := t'.s.okOwners) {
      SameCounts(t.s, t'.s);
    } else if x in t.s.opens && t'.s == WithoutOpen(t.s, x) {
      CloseCounts(t.s, x);
    } else if access: Bits, deny: Bits :| Narrowed(t.s, t'.s, x, access, deny) {
      SharesCount(t.s, x, access, deny);
    } else {
      LockingCounts(t.s, t'.s, x);
    }
  }

  lemma CloseCounts(s: State, x: Other)
    requires x in s.opens
    ensures Counts(s, WithoutOpen(s, x))
  {}

  lemma SharesCount(s: State, x: Other, access: Bits, deny: Bits)
    requires x in s.opens
    ensures Counts(s, WithShares(s, x, access, deny))
  {}

  lemma LockingCounts(s: State, s': State, x: Other)
    requires (exists lo: Owner, p: Path, r: LockRange :: Locked(s, s', lo, x, p, r))
          || (exists ranges: seq<LockRange> :: Ranged(s, s', x, ranges))
    ensures Counts(s, s')
  {}

  lemma SeqCounts(t: Tables, x: Other, n: nat, p: Path, op: SeqOp)
    requires WellFormed(t.s, op)
    ensures Counts(t.s, ApplySeq(t, x, n, p, op).s)
  {
    SeqHasEffect(t, x, n, p, op);
    EffectCounts(t, ApplySeq(t, x, n, p, op), x);
  }

  lemma PlaceCounts(s: State, o: Owner, q: Pending, pick: Other)
    ensures Counts(s, PlaceOpen(s, o, q, pick))
  {}

  lemma CommitCounts(t: Tables, o: Owner, q: Pending, ds: bool, pick: Other)
    ensures Counts(t.s, OpenCommit(t, o, q, ds, pick).0.s)
  {
    if OpenStatus(t.s, o, q) == Ok {
      CommitShape(t, o, q, ds, pick);
      PlaceCounts(t.s, o, q, pick);
    }
  }

  lemma RenameCounts(s: State, from: Path, to: Path)
    ensures Counts(s, Rename(s, from, to))
  {}

  lemma ClearCounts(w: World, o: Owner)
    requires o in w.pending
    ensures Counts(w.t.s, ClearWay(w, o).t.s)
  {
    SameCounts(w.t.s, ClearWay(w, o).t.s);
  }

  lemma StepCounts(w: World, step: Step)
    ensures Counts(w.t.s, Next(w, step).t.s)
  {
    if Enabled(w, step) {
      match step {
        case Plain(op) => PlainCounts(w.t, op);
        case Sequenced(x, n, p, op) => SeqCounts(w.t, x, n, p, op);
        case OpenEnd(o, ds, pick) => CommitCounts(w.t, o, w.pending[o], ds, pick);
        case RenameTo(from, to) => RenameCounts(w.t.s, from, to);
        case OpenRecall(o) => ClearCounts(w, o);
        case _ => SameCounts(w.t.s, Next(w, step).t.s);
      }
    }
  }

  // ---------- runs ----------

  /** `m` is at most `d` places, and at least one, past `n`. */
  ghost predicate Past(n: nat, m: nat, d: nat) { exists k: nat :: 1 <= k <= d && m == Later(n, k) }

  lemma PastFollows(n: nat, m: nat, m': nat, d: nat)
    requires Past(n, m, d) && Follows(m, m')
    ensures Past(n, m', d + 1)
  {
    var k: nat :| 1 <= k <= d && m == Later(n, k);
    LaterInc(n, k);
    assert m' == Later(n, k) || m' == Later(n, k + 1);
  }

  lemma PastDiffers(n: nat, m: nat, d: nat)
    requires Past(n, m, d) && d < WORD
    ensures m != n
  {
    var k: nat :| 1 <= k <= d && m == Later(n, k);
    LaterDiffers(n, k);
  }

  /** Number `n` of stateid `x` was used up at most `d` steps ago. */
  ghost predicate UsedUp(s: State, x: Other, n: nat, d: nat) {
    && x <= s.next
    && (x in s.opens ==> Past(n, s.opens[x].seqid, d))
    && (x in s.locks ==> Past(n, s.locks[x].seqid, d))
  }

  lemma StepUsedUp(s: State, s': State, x: Other, n: nat, d: nat)
    requires UsedUp(s, x, n, d) && Counts(s, s')
    ensures UsedUp(s', x, n, d + 1)
  {
    if x in s'.opens { PastFollows(n, s.opens[x].seqid, s'.opens[x].seqid, d); }
    if x in s'.locks { PastFollows(n, s.locks[x].seqid, s'.locks[x].seqid, d); }
  }

  lemma {:induction false} RunUsedUp(w: World, steps: seq<Step>, x: Other, n: nat)
    requires UsedUp(w.t.s, x, n, 1)
    ensures UsedUp(Run(w, steps).t.s, x, n, |steps| + 1)
  {
    if steps != [] {
      var mid := Run(w, steps[..|steps|-1]);
      RunUsedUp(w, steps[..|steps|-1], x, n);
      StepCounts(mid, steps[|steps|-1]);
      StepUsedUp(mid.t.s, Run(w, steps).t.s, x, n, |steps|);
    }
  }

  lemma UsedUpRefused(s: State, x: Other, n: nat, d: nat, q: Path)
    requires UsedUp(s, x, n, d) && d < WORD
    ensures ResolveOpen(s, x, n, q) != Ok && ResolveLock(s, x, n, q) != Ok
  {
    if x in s.opens { PastDiffers(n, s.opens[x].seqid, d); }
    if x in s.locks { PastDiffers(n, s.locks[x].seqid, d); }
  }

  /** The step changes the open or lock state `x`, whose number is `n`, and succeeds. */
  ghost predicate Succeeds(w: World, step: Step, x: Other, n: nat)
    requires Enabled(w, step)
  {
    match step
    case Sequenced(y, m, p, op) => y == x && m == n && Changes(w.t, x, n, p, op)
    case OpenEnd(o, _, pick) =>
      var q := w.pending[o];
      OpenStatus(w.t.s, o, q) == Ok && FindOpen(w.t.s, q.path, o, pick) == Some(x) && w.t.s.opens[x].seqid == n
    case _ => false
  }

  ghost predicate Changes(t: Tables, x: Other, n: nat, p: Path, op: SeqOp)
    requires WellFormed(t.s, op)
  {
    match op
    case Downgrade(access, deny) => OpenDowngrade(t, x, n, p, access, deny).1 == Ok
    case LockAgain(r) => LockMore(t, x, n, p, r).1 == Ok
    case Unlock(r) => LockU(t, x, n, p, r).1 == Ok
    case _ => false
  }

  /** On the path it names, the stateid is accepted with this number. */
  ghost predicate Current(s: State, x: Other, n: nat) {
    || (x in s.opens && (s.opens[x].owner in s.okOwners ==> ResolveOpen(s, x, n, s.opens[x].path) == Ok))
    || (x in s.locks && ResolveLock(s, x, n, s.locks[x].path) == Ok)
  }

  lemma ChangeUses(t: Tables, x: Other, n: nat, p: Path, op: SeqOp)
    requires IdsOk(t.s) && WellFormed(t.s, op) && Changes(t, x, n, p, op)
    ensures UsedUp(ApplySeq(t, x, n, p, op).s, x, n, 1) && Current(ApplySeq(t, x, n, p, op).s, x, Inc(n))
  {
    assert Later(n, 1) == Inc(n);
  }

  lemma UpgradeUses(t: Tables, o: Owner, q: Pending, ds: bool, x: Other, pick: Other)
    requires IdsOk(t.s) && OpenStatus(t.s, o, q) == Ok && FindOpen(t.s, q.path, o, pick) == Some(x)
    ensures var s', n := OpenCommit(t, o, q, ds, pick).0.s, t.s.opens[x].seqid;
            UsedUp(s', x, n, 1) && Current(s', x, Inc(n))
  {
    assert Later(t.s.opens[x].seqid, 1) == Inc(t.s.opens[x].seqid);
    CommitShape(t, o, q, ds, pick);
  }

  lemma SuccessUses(w: World, step: Step, x: Other, n: nat)
    requires IdsOk(w.t.s) && Enabled(w, step) && Succeeds(w, step, x, n)
    ensures UsedUp(Next(w, step).t.s, x, n, 1) && Current(Next(w, step).t.s, x, Inc(n))
  {
    match step
    case Sequenced(_, _, p, op) => ChangeUses(w.t, x, n, p, op);
    case OpenEnd(o, ds, pick) => UpgradeUses(w.t, o, w.pending[o], ds, x, pick);
  }

  /**
   A number that a successful operation has used (OPEN on a path its owner has open
   already, OPEN_DOWNGRADE, LOCK or LOCKU) is refused afterwards, on any path and
   whatever else happens, for the next 2^32 - 2 steps; the one after it is accepted at once.
   */
  lemma UsedSeqidRefused(w: World, step: Step, x: Other, n: nat, steps: seq<Step>, q: Path)
    requires Kept(w) && Enabled(w, step) && Succeeds(w, step, x, n) && |steps| + 1 < WORD
    ensures var w1 := Next(w, step);
            && ResolveOpen(Run(w1, steps).t.s, x, n, q) != Ok && ResolveLock(Run(w1, steps).t.s, x, n, q) != Ok
            && Current(w1.t.s, x, Inc(n))
  {
    SuccessUses(w, step, x, n);
    RunUsedUp(Next(w, step), steps, x, n);
    UsedUpRefused(Run(Next(w, step), steps).t.s, x, n, |steps| + 1, q);
  }
}
