/**
 Which owner's sequence stream a stateid leads to, over runs (nfs4/state.go, stateOwners,
 ownerForStateid and openOwnerForStateid; nfs4/ops_state.go, close).

 An open stateid leads to its owner for as long as that owner sends nothing else and its
 client is not released, even after the CLOSE that the request may have been.
 */
module NfsRouting {
  import opened LockRanges
  import opened NfsTables
  import opened NfsInvariants
  import opened NfsRuns
  import opened NfsKept

  /** No open or lock that was there before has another owner. */
  ghost predicate SameOwners(s: State, s': State) {
    && (forall x | x in s'.opens && x <= s.next :: x in s.opens && s'.opens[x].owner == s.opens[x].owner)
    && (forall x | x in s'.locks && x <= s.next :: x in s.locks && s'.locks[x].owner == s.locks[x].owner)
  }

  /** Every stateid that leads to `o` as an open, or as its last closed one, still does. */
  ghost predicate KeepsRoutes(s: State, s': State, o: Owner) {
    forall x | Leads(s, x, o) :: Leads(s', x, o)
  }

  ghost predicate Leads(s: State, x: Other, o: Owner) {
    (x in s.opens && s.opens[x].owner == o) || (x in s.closed && s.closed[x] == o)
  }

  /** For an open-owner that is what finding the owner of the stateid means. */
  lemma LeadsIff(s: State, x: Other, o: Owner)
    requires Tidy(s) && o.kind == OpenOwner
    ensures SeqOwner(s, x) == Some(o) <==> Leads(s, x, o)
  {
    if x in s.closed { assert Gone(s, x); }
  }

  ghost predicate Routes(s: State, s': State, o: Owner) { SameOwners(s, s') && KeepsRoutes(s, s', o) }

  // ---------- one step ----------

  lemma SameRoutes(s: State, s': State, o: Owner)
    requires s'.opens == s.opens && s'.locks == s.locks && s'.closed == s.closed
    ensures Routes(s, s', o)
  {}

  lemma ReleaseRoutes(s: State, dead: set<ClientId>, o: Owner)
    requires o.client !in dead
    ensures Routes(s, WithoutStateOf(s, dead), o)
  {}

  lemma ConfirmRoutes(t: Tables, id: ClientId, ok: bool, o: Owner)
    requires ClientsOk(t.cl) && o.client in t.cl.confirmed && o.client in ConfirmClient(t, id, ok).0.cl.confirmed
    ensures Routes(t.s, ConfirmClient(t, id, ok).0.s, o)
  {
    if id in t.cl.unconfirmed && ok && t.cl.all[id].ownerId in t.cl.byOwner {
      ReleaseRoutes(t.s, {t.cl.byOwner[t.cl.all[id].ownerId]}, o);
    }
  }

  lemma SweepRoutes(t: Tables, o: Owner)
    requires o.client in Sweep(t).cl.confirmed
    ensures Routes(t.s, Sweep(t).s, o)
  {
    var s1 := SweptTombs(t.s, t.lease, t.now);
    var s2 := Revoke(s1, ForfeitOf(s1, s1.delegs.Keys, t.now, t.recallWait), t.now);
    var t2 := t.(cl := SweptClients(t.cl, t.lease, t.now), s := s2);
    ReleaseRoutes(Tombstoned(s2, LapsedClients(t2), t.now), LapsedClients(t2), o);
  }

  lemma PlainRoutes(t: Tables, op: PlainOp, o: Owner)
    requires ClientsOk(t.cl) && o.client in t.cl.confirmed && o.client in ApplyPlain(t, op).cl.confirmed
    ensures Routes(t.s, ApplyPlain(t, op).s, o)
  {
    match op {
      case ConfirmClientId(id, ok) => ConfirmRoutes(t, id, ok, o);
      case SweepExpired => SweepRoutes(t, o);
      case ReleaseOwner(lo) =>
      case _ => SameRoutes(t.s, ApplyPlain(t, op).s, o);
    }
  }

  lemma EffectRoutes(t: Tables, t': Tables, x: Other, o: Owner)
    requires ClosedOk(t.s) && SeqEffect(t, t', x) && SeqOwner(t.s, x) != Some(o)
    ensures Routes(t.s, t'.s, o)
  {
    if t'.s == t.s.(okOwners := t'.s.okOwners) {
      SameRoutes(t.s, t'.s, o);
    } else if x in t.s.opens && t'.s == WithoutOpen(t.s, x) {
      CloseRoutes(t.s, x, o);
    } else if access: Bits, deny: Bits :| Narrowed(t.s, t'.s, x, access, deny) {
      SharesRoutes(t.s, x, access, deny, o);
    } else {
      LockingRoutes(t.s, t'.s, x, o);
    }
  }

  lemma CloseRoutes(s: State, x: Other, o: Owner)
    requires ClosedOk(s) && x in s.opens && s.opens[x].owner != o
    ensures Routes(s, WithoutOpen(s, x), o)
  {
    var s' := WithoutOpen(s, x);
    forall y | Leads(s, y, o) ensures Leads(s', y, o) {
      if y in s.closed { assert Gone(s, y); }
    }
  }

  lemma SharesRoutes(s: State, x: Other, access: Bits, deny: Bits, o: Owner)
    requires x in s.opens
    ensures Routes(s, WithShares(s, x, access, deny), o)
  {}

  lemma LockingRoutes(s: State, s': State, x: Other, o: Owner)
    requires (exists lo: Owner, p: Path, r: LockRange :: Locked(s, s', lo, x, p, r))
          || (exists ranges: seq<LockRange> :: Ranged(s, s', x, ranges))
    ensures Routes(s, s', o)
  {}

  lemma PlaceRoutes(s: State, who: Owner, q: Pending, o: Owner, pick: Other)
    requires IdsOk(s)
    ensures Routes(s, PlaceOpen(s, who, q, pick), o)
  {
    match FindOpen(s, q.path, who, pick) {
      case None =>
      case Some(x) => SharesRoutes(s, x, q.unionAccess, q.unionDeny, o);
    }
  }

  lemma CommitRoutes(t: Tables, who: Owner, q: Pending, ds: bool, o: Owner, pick: Other)
    requires IdsOk(t.s)
    ensures Routes(t.s, OpenCommit(t, who, q, ds, pick).0.s, o)
  {
    PlaceRoutes(t.s, who, q, o, pick);
    var s1 := PlaceOpen(t.s, who, q, pick);
    SameRoutes(s1, Grant(t.cl, s1, q.path, who, q.unionAccess), o);
  }

  lemma RenameRoutes(s: State, from: Path, to: Path, o: Owner)
    ensures Routes(s, Rename(s, from, to), o)
  {}

  lemma StepRoutes(w: World, step: Step, o: Owner)
    requires Kept(w) && o.client in w.t.cl.confirmed && o.client in Next(w, step).t.cl.confirmed
    requires step.Sequenced? ==> SeqOwner(w.t.s, step.x) != Some(o)
    ensures Routes(w.t.s, Next(w, step).t.s, o)
  {
    if Enabled(w, step) {
      match step {
        case Plain(op) => PlainRoutes(w.t, op, o);
        case Sequenced(x, n, p, op) => SeqRoutes(w.t, x, n, p, op, o);
        case OpenEnd(who, ds, pick) => CommitRoutes(w.t, who, w.pending[who], ds, o, pick);
        case RenameTo(from, to) => RenameRoutes(w.t.s, from, to, o);
        case _ => QuietRoutes(w, step, o);
      }
    }
  }

  lemma SeqRoutes(t: Tables, x: Other, n: nat, p: Path, op: SeqOp, o: Owner)
    requires ClosedOk(t.s) && WellFormed(t.s, op) && SeqOwner(t.s, x) != Some(o)
    ensures Routes(t.s, ApplySeq(t, x, n, p, op).s, o)
  {
    SeqHasEffect(t, x, n, p, op);
    EffectRoutes(t, ApplySeq(t, x, n, p, op), x, o);
  }

  /** Steps that touch no open, lock or closed stateid. */
  lemma QuietRoutes(w: World, step: Step, o: Owner)
    requires step.OpenBegin? || step.OpenRecall? || step.OpenAbort? || step.Disturb?
    ensures Routes(w.t.s, Next(w, step).t.s, o)
  {
    QuietRows(w, step);
    SameRoutes(w.t.s, Next(w, step).t.s, o);
  }

  lemma QuietRows(w: World, step: Step)
    requires step.OpenBegin? || step.OpenRecall? || step.OpenAbort? || step.Disturb?
    ensures var s' := Next(w, step).t.s; s'.opens == w.t.s.opens && s'.locks == w.t.s.locks && s'.closed == w.t.s.closed
  {}
}
