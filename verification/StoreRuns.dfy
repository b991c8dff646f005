/**
 The store under a server: every step of a run is carried out by the store's methods
 on its indexes (nfs4/state.go, ops_state.go, ops_lock.go, callback.go, lease.go).

 `Server` holds the OPENs in flight beside the store.  After any steps it is in exactly
 the world that the tables specify with every index exact, so what `NfsRuns` and its
 companions prove of runs is proved of the store.  Where a rename has given an owner
 several opens of a path, the store's list decides which of them a later OPEN finds.
 */
module StoreRuns {
  import opened NfsTables
  import opened NfsInvariants
  import opened NfsRuns
  import opened NfsKept
  import opened NfsSafety
  import opened StoreAgreement
  import opened StateStore

  class Server {
    const store: Store
    var pending: map<Owner, Pending>
    ghost var recalls: multiset<Other>

    ghost predicate Valid() reads this, store { store.Valid() && Kept(World()) }

    ghost function World(): World reads this, store { NfsRuns.World(store.t, pending, recalls) }

    constructor (lease: nat, recallWait: nat)
      ensures Valid() && World() == Start(lease, recallWait) && fresh(store)
    {
      store := new Store(lease, recallWait);
      pending, recalls := map[], multiset{};
      new;
      StartOk(lease, recallWait);
    }

    method DoPlain(op: PlainOp)
      requires Valid()
      modifies store
      ensures store.Valid() && World() == Next(old(World()), Plain(op))
    {
      TidyFacts(store.t.s);
      CallPlain(op);
    }

    method CallPlain(op: PlainOp)
      requires store.Valid() && Facts(store.t.s) && ClientsOk(store.t.cl)
      modifies store
      ensures store.Valid() && store.t == ApplyPlain(old(store.t), op)
    {
      var st;
      match op
      case Tick(d) => store.Tick(d);
      case SetClient(ownerId, principal) => st := store.SetClientIdAt(ownerId, principal);
      case ConfirmClientId(id, ok) => st := store.ConfirmClientId(id, ok);
      case RenewLease(id) => st := store.RenewLease(id);
      case CallbackAnswered(id) => store.CallbackAnswered(id);
      case ReturnDeleg(x, n, p) => st := store.ReturnDelegation(x, n, p);
      case ReleaseOwner(lo) => st := store.ReleaseOwner(lo);
      case SweepExpired => store.SweepExpired();
    }

    /** A request on a stateid; it waits while its owner has an OPEN in flight. */
    method DoSequenced(x: Other, n: nat, p: Path, op: SeqOp)
      requires Valid()
      modifies store
      ensures store.Valid() && World() == Next(old(World()), Sequenced(x, n, p, op))
    {
      TidyFacts(store.t.s);
      var busy := OwnerBusy(x);
      if !busy && OnTheWire(op) { CallSequenced(x, n, p, op); }
    }

    method CallSequenced(x: Other, n: nat, p: Path, op: SeqOp)
      requires store.Valid() && Facts(store.t.s) && AllCanonical(store.t.s) && WellFormed(store.t.s, op)
      modifies store
      ensures store.Valid() && store.t == ApplySeq(old(store.t), x, n, p, op)
    {
      var st;
      match op
      case ConfirmOpen => st := store.ConfirmOpen(x, n, p);
      case Downgrade(access, deny) => st := store.DowngradeOpen(x, n, p, access, deny);
      case CloseOpen => st := store.CloseOpen(x, n, p);
      case LockFirst(lo, r) => st := store.LockFirst(x, n, lo, p, r);
      case LockAgain(r) => st := store.LockAgain(x, n, p, r);
      case Unlock(r) => st := store.Unlock(x, n, p, r);
    }

    method OwnerBusy(x: Other) returns (busy: bool)
      requires store.Valid()
      ensures busy <==> !Idle(World(), x)
    {
      assert OwnerAt(store.ix.owners, x) == SeqOwner(store.t.s, x);
      busy := x in store.ix.owners && store.ix.owners[x] in pending;
    }

    method DoBegin(o: Owner, p: Path, access: Bits, deny: Bits, truncating: bool) returns (ghost pick: Other)
      requires Valid()
      modifies this, store
      ensures store.Valid() && World() == Next(old(World()), OpenBegin(o, p, access, deny, truncating, pick))
    {
      pick := 0;
      if o.kind != OpenOwner || o.client !in store.t.cl.confirmed || o in pending { return; }
      var q, st;
      q, st, pick := store.CheckOpen(o, p, access, deny, truncating);
      if q.Some? { pending := pending[o := q.value]; }
    }

    /** The recall before an OPEN's side effects; the client is told to wait while a delegation stands in the way. */
    method DoRecall(o: Owner)
      requires Valid()
      modifies this, store
      ensures store.Valid() && World() == Next(old(World()), OpenRecall(o))
    {
      if o !in pending || pending[o].cleared { return; }
      var q := pending[o];
      if !NeedsRecall(q) {
        pending := pending[o := q.(cleared := true)];
        return;
      }
      var st, jobs := store.RecallDelegations(q.path, Some(o.client));
      recalls := recalls + multiset(jobs);
      if st == Ok { pending := pending[o := q.(cleared := true)]; } else { pending := pending - {o}; }
    }

    method DoEnd(o: Owner, delegations: bool) returns (ghost pick: Other)
      requires Valid()
      modifies this, store
      ensures store.Valid() && World() == Next(old(World()), OpenEnd(o, delegations, pick))
    {
      TidyFacts(store.t.s);
      pick := 0;
      if o !in pending || !pending[o].cleared { return; }
      var st;
      st, pick := store.CommitOpen(o, pending[o], delegations);
      pending := pending - {o};
    }

    method DoDisturb(p: Path, except: Option<ClientId>)
      requires Valid()
      modifies this, store
      ensures store.Valid() && World() == Next(old(World()), Disturb(p, except))
    {
      var st, jobs := store.RecallDelegations(p, except);
      recalls := recalls + multiset(jobs);
    }

    /** RENAME: the walks take the keys in any order. */
    method DoRename(from: Path, to: Path)
      requires Valid()
      modifies store
      ensures store.Valid() && World() == Next(old(World()), RenameTo(from, to))
    {
      ghost var w := World();
      if !Incomparable(from, to) { return; }
      CallRename(from, to);
      RenameNext(w, from, to);
    }

    method CallRename(from: Path, to: Path)
      requires store.Valid() && Incomparable(from, to)
      modifies store
      ensures store.Valid() && store.t == old(store.t).(s := Rename(old(store.t).s, from, to))
    {
      var opens := AnyOrder(store.ix.byPath);
      var locks := AnyOrder(store.ix.locksByPath);
      var delegs := AnyOrder(store.ix.delegsByPath);
      store.RenameAll(from, to, opens, locks, delegs);
    }

    /** Carries out a request; `done` is the step it was, with the open that an OPEN found. */
    method Do(step: Step) returns (ghost done: Step)
      requires Valid()
      modifies this, store
      ensures Valid() && SameRequest(step, done) && World() == Next(old(World()), done)
    {
      ghost var w := World();
      done := Dispatch(step);
      StepKept(w, done);
    }

    method Dispatch(step: Step) returns (ghost done: Step)
      requires Valid()
      modifies this, store
      ensures store.Valid() && SameRequest(step, done) && World() == Next(old(World()), done)
    {
      done := step;
      ghost var pick;
      match step
      case Plain(op) => DoPlain(op);
      case Sequenced(x, n, p, op) => DoSequenced(x, n, p, op);
      case OpenBegin(o, p, access, deny, truncating, _) =>
        pick := DoBegin(o, p, access, deny, truncating);
        done := OpenBegin(o, p, access, deny, truncating, pick);
      case OpenRecall(o) => DoRecall(o);
      case OpenEnd(o, delegations, _) =>
        pick := DoEnd(o, delegations);
        done := OpenEnd(o, delegations, pick);
      case OpenAbort(o) => pending := pending - {o};
      case Disturb(p, except) => DoDisturb(p, except);
      case RenameTo(from, to) => DoRename(from, to);
    }

    method DoAll(steps: seq<Step>) returns (ghost done: seq<Step>)
      requires Valid()
      modifies this, store
      ensures Valid() && SameRequests(steps, done) && World() == Run(old(World()), done)
    {
      ghost var w := World();
      done := [];
      for i := 0 to |steps|
        invariant Valid() && |done| == i && (forall k | 0 <= k < i :: SameRequest(steps[k], done[k]))
        invariant World() == Run(w, done)
      {
        ghost var before := World();
        ghost var last := Do(steps[i]);
        RunMore(w, done, last, before, World());
        done := done + [last];
      }
    }
  }

  lemma RunMore(w: World, steps: seq<Step>, last: Step, w1: World, w2: World)
    requires w1 == Run(w, steps) && w2 == Next(w1, last)
    ensures w2 == Run(w, steps + [last])
  {
    assert (steps + [last])[..|steps|] == steps;
  }

  lemma StartOk(lease: nat, recallWait: nat)
    ensures Kept(Start(lease, recallWait)) && UniqueOpens(Start(lease, recallWait).t.s.opens)
  {}

  /** A well-formed range, and a lock-owner where one is named. */
  predicate OnTheWire(op: SeqOp) {
    match op
    case LockFirst(lo, r) => lo.kind == LockOwner && r.Wf()
    case LockAgain(r) => r.Wf()
    case Unlock(r) => r.Wf()
    case _ => true
  }

  /** The keys of a map, in some order. */
  method AnyOrder<V>(index: map<Path, V>) returns (order: seq<Path>)
    ensures forall k :: k in index ==> k in order
  {
    var todo := index.Keys;
    order := [];
    while todo != {}
      invariant todo <= index.Keys && forall k :: k in index ==> k in todo || k in order
    {
      var k :| k in todo;
      todo := todo - {k};
      order := order + [k];
    }
  }

  lemma RenameNext(w: World, from: Path, to: Path)
    requires Enabled(w, RenameTo(from, to))
    ensures Next(w, RenameTo(from, to)) == w.(t := w.t.(s := Rename(w.t.s, from, to)))
  {}

  /**
   A server that has carried out any requests is in the world of that run of the tables,
   with its indexes exact.  `done` are the requests with the opens that they found, which is
   no choice at all unless a rename gives an owner two opens of a path; and so a careful
   run leaves the store safe.
   */
  method Serve(lease: nat, recallWait: nat, steps: seq<Step>) returns (sv: Server, ghost done: seq<Step>)
    ensures fresh(sv) && fresh(sv.store) && sv.Valid()
    ensures SameRequests(steps, done) && sv.World() == Run(Start(lease, recallWait), done)
    ensures RunUnique(Start(lease, recallWait), steps) ==> sv.World() == Run(Start(lease, recallWait), steps)
    ensures RunCareful(Start(lease, recallWait), steps) ==> WorldOk(sv.World())
  {
    sv := new Server(lease, recallWait);
    done := sv.DoAll(steps);
    StartOk(lease, recallWait);
    ghost var w := Start(lease, recallWait);
    if RunUnique(w, steps) { PicksIrrelevant(w, steps, done); }
    if RunCareful(w, steps) {
      CarefulUnique(w, steps);
      EveryRunSafe(lease, recallWait, steps);
    }
  }
}
