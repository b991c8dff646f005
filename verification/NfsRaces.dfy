/**
 What the split OPEN and RENAME do not keep: runs in which another step falls between
 an OPEN's phases, a run in which a RENAME merges reservations, and the exact condition
 that each commit needs.
 */
module NfsRaces {
  import opened LockRanges
  import opened NfsTables
  import opened NfsInvariants
  import opened NfsRuns
  import opened NfsDelegations

  /** Some run from the empty store, with 90-second lease and recall timeout, ends in `w`. */
  ghost predicate Reachable(w: World) {
    exists steps :: Run(Start(90, 90), steps) == w
  }

  lemma Initially()
    ensures Reachable(Start(90, 90))
  {
    assert Run(Start(90, 90), []) == Start(90, 90);
  }

  lemma Then(w: World, step: Step)
    requires Reachable(w)
    ensures Reachable(Next(w, step))
  {
    var steps :| Run(Start(90, 90), steps) == w;
    assert (steps + [step])[..|steps|] == steps;
    assert Run(Start(90, 90), steps + [step]) == Next(w, step);
  }

  /** Some run of whole operations ends in `w`. */
  ghost predicate WhollyReachable(w: World) {
    exists ops: seq<Op> :: AllWhole(ops) && RunOps(Start(90, 90), ops) == w
  }

  predicate AllWhole(ops: seq<Op>) { forall i | 0 <= i < |ops| :: IsWhole(ops[i]) }

  lemma WhollyThen(w: World, op: Op)
    requires WhollyReachable(w) && IsWhole(op)
    ensures WhollyReachable(ApplyOp(w, op))
  {
    var ops: seq<Op> :| AllWhole(ops) && RunOps(Start(90, 90), ops) == w;
    assert (ops + [op])[..|ops|] == ops;
    assert AllWhole(ops + [op]) && RunOps(Start(90, 90), ops + [op]) == ApplyOp(w, op);
  }

  const READ := Bits(true, false)
  const WRITE := Bits(false, true)
  const NONE := Bits(false, false)

  function OwnerOf(n: nat): Owner { Owner(OpenOwner, n, "owner") }

  function NewClient(name: string, cbUp: bool): Client { Client(name, "sys:0", cbUp, 0) }

  /** Client 1 is confirmed. */
  function OneClient(): World {
    var cl := Clients(1, map[1 := NewClient("a", false)], {1}, {}, map["a" := 1], map[]);
    Start(90, 90).(t := Init(90, 90).(cl := cl))
  }

  /** Clients 1 and 2 are confirmed, and client 2 answers callbacks. */
  function TwoClients(s: State, pending: map<Owner, Pending>): World {
    var cl := Clients(2, map[1 := NewClient("a", false), 2 := NewClient("b", true)], {1, 2}, {},
                      map["a" := 1, "b" := 2], map[]);
    World(Init(90, 90).(cl := cl, s := s), pending, multiset{})
  }

  function NoState(): State { Init(90, 90).s }

  /** One more step, which is a whole operation. */
  lemma Also(w: World, step: Step)
    requires Reachable(w) && WhollyReachable(w) && IsWhole(One(step))
    ensures Reachable(Next(w, step)) && WhollyReachable(Next(w, step))
  {
    Then(w, step);
    WhollyThen(w, One(step));
  }

  lemma OneJoins()
    ensures Reachable(OneClient()) && WhollyReachable(OneClient())
  {
    Initially();
    assert AllWhole([]) && RunOps(Start(90, 90), []) == Start(90, 90);
    var w1 := Next(Start(90, 90), Plain(SetClient("a", "sys:0")));
    Also(Start(90, 90), Plain(SetClient("a", "sys:0")));
    assert w1.t.cl == Clients(1, map[1 := NewClient("a", false)], {}, {1}, map[], map[]);
    var w2 := Next(w1, Plain(ConfirmClientId(1, true)));
    Also(w1, Plain(ConfirmClientId(1, true)));
    assert w2.t.cl == OneClient().t.cl;
    assert w2 == OneClient();
  }

  lemma TwoJoin()
    ensures Reachable(TwoClients(NoState(), map[])) && WhollyReachable(TwoClients(NoState(), map[]))
  {
    var w := SecondJoins();
    var w' := Next(w, Plain(CallbackAnswered(2)));
    Also(w, Plain(CallbackAnswered(2)));
    assert w'.t.cl == TwoClients(NoState(), map[]).t.cl;
    assert w' == TwoClients(NoState(), map[]);
  }

  function BothClients(): map<ClientId, Client> { map[1 := NewClient("a", false), 2 := NewClient("b", false)] }

  function SecondAt(cl: Clients): World { OneClient().(t := OneClient().t.(cl := cl)) }

  lemma SecondJoins() returns (w: World)
    ensures Reachable(w) && WhollyReachable(w)
    ensures w == SecondAt(Clients(2, BothClients(), {1, 2}, {}, map["a" := 1, "b" := 2], map[]))
  {
    var w1 := SecondAsks();
    w := Next(w1, Plain(ConfirmClientId(2, true)));
    Also(w1, Plain(ConfirmClientId(2, true)));
    assert w.t.cl == Clients(2, BothClients(), {1, 2}, {}, map["a" := 1, "b" := 2], map[]);
  }

  lemma SecondAsks() returns (w: World)
    ensures Reachable(w) && WhollyReachable(w)
    ensures w == SecondAt(Clients(2, BothClients(), {1}, {2}, map["a" := 1], map[]))
  {
    OneJoins();
    w := Next(OneClient(), Plain(SetClient("b", "sys:0")));
    Also(OneClient(), Plain(SetClient("b", "sys:0")));
    assert w.t.cl == Clients(2, BothClients(), {1}, {2}, map["a" := 1], map[]);
  }

  // ---------- a delegation granted between another OPEN's recall and commit ----------

  /** Client 2 has the file open for reading. */
  function Reading(seqid: nat, ok: set<Owner>): State {
    NoState().(next := 1, okOwners := ok, opens := map[1 := Open(seqid, OwnerOf(2), "/f", READ, NONE)])
  }

  /** The same after client 2's second OPEN carried a delegation. */
  function Delegated(): State {
    Reading(2, {OwnerOf(2)}).(next := 2, delegs := map[2 := Deleg(1, 2, "/f", false, 0)])
  }

  function InFlight(access: Bits, cleared: bool): Pending {
    Pending("/f", access, NONE, false, access, NONE, cleared)
  }

  /** Client 2's OPEN for reading passes its check. */
  lemma ReaderBegins(s: State, pending: map<Owner, Pending>)
    requires s == NoState() || s == Reading(1, {OwnerOf(2)})
    requires pending.Keys <= {OwnerOf(1)} && Reachable(TwoClients(s, pending))
    ensures Reachable(TwoClients(s, pending[OwnerOf(2) := InFlight(READ, false)]))
  {
    var w := TwoClients(s, pending);
    var begin := OpenBegin(OwnerOf(2), "/f", READ, NONE, false, 0);
    if s == Reading(1, {OwnerOf(2)}) {
      assert IsOpenOf(s, "/f", OwnerOf(2), 1);
      assert FindOpen(s, "/f", OwnerOf(2), 0) == Some(1);
    }
    assert OpenCheck(s, OwnerOf(2), "/f", READ, NONE, false, 0).0 == Some(InFlight(READ, false));
    var w1 := Next(w, begin);
    assert w1.t.cl == w.t.cl;
    assert w1 == TwoClients(s, pending[OwnerOf(2) := InFlight(READ, false)]);
    Then(w, begin);
  }

  /** And it needs no recall. */
  lemma ReaderCleared(s: State, pending: map<Owner, Pending>)
    requires s == NoState() || s == Reading(1, {OwnerOf(2)})
    requires pending.Keys <= {OwnerOf(1)} && Reachable(TwoClients(s, pending))
    ensures Reachable(TwoClients(s, pending[OwnerOf(2) := InFlight(READ, true)]))
  {
    ReaderBegins(s, pending);
    var w1 := TwoClients(s, pending[OwnerOf(2) := InFlight(READ, false)]);
    Then(w1, OpenRecall(OwnerOf(2)));
    assert w1.pending[OwnerOf(2) := InFlight(READ, true)] == pending[OwnerOf(2) := InFlight(READ, true)];
    assert Next(w1, OpenRecall(OwnerOf(2))) == TwoClients(s, pending[OwnerOf(2) := InFlight(READ, true)]);
  }

  lemma FirstRead()
    ensures Reachable(TwoClients(Reading(1, {OwnerOf(2)}), map[]))
  {
    TwoJoin();
    ReaderCleared(NoState(), map[]);
    var w := TwoClients(NoState(), map[OwnerOf(2) := InFlight(READ, true)]);
    assert w.pending == map[][OwnerOf(2) := InFlight(READ, true)];
    var w1 := Next(w, OpenEnd(OwnerOf(2), false, 0));
    Then(w, OpenEnd(OwnerOf(2), false, 0));
    assert OpensOf(NoState(), 2) == {};
    assert w1.t.cl == w.t.cl;
    assert w1 == TwoClients(Reading(1, {}), map[]);
    var confirm := Sequenced(1, 1, "/f", ConfirmOpen);
    Then(w1, confirm);
    assert SeqOwner(Reading(1, {}), 1) == Some(OwnerOf(2));
    assert Next(w1, confirm).t.cl == w.t.cl;
    assert Next(w1, confirm) == TwoClients(Reading(1, {OwnerOf(2)}), map[]);
  }

  lemma WriterBegins()
    ensures Reachable(TwoClients(Reading(1, {OwnerOf(2)}), map[OwnerOf(1) := InFlight(WRITE, false)]))
  {
    FirstRead();
    var s := Reading(1, {OwnerOf(2)});
    var w := TwoClients(s, map[]);
    var begin := OpenBegin(OwnerOf(1), "/f", WRITE, NONE, false, 0);
    assert forall x :: !IsOpenOf(s, "/f", OwnerOf(1), x);
    var w1 := Next(w, begin);
    Then(w, begin);
    assert w1.t.cl == w.t.cl;
    assert w1 == TwoClients(s, map[OwnerOf(1) := InFlight(WRITE, false)]);
  }

  lemma WriterCleared()
    ensures Reachable(TwoClients(Reading(1, {OwnerOf(2)}), map[OwnerOf(1) := InFlight(WRITE, true)]))
  {
    WriterBegins();
    var s := Reading(1, {OwnerOf(2)});
    var w1 := TwoClients(s, map[OwnerOf(1) := InFlight(WRITE, false)]);
    Then(w1, OpenRecall(OwnerOf(1)));
    assert Disturbed(s, "/f", Some(1)) == {} && RecallJobs(s, "/f", Some(1)) == {};
    assert Recall(w1.t, "/f", Some(1)).0.s == s;
    assert Next(w1, OpenRecall(OwnerOf(1))) == TwoClients(s, map[OwnerOf(1) := InFlight(WRITE, true)]);
  }

  lemma GrantHappens(w: World)
    requires w.t == TwoClients(Reading(1, {OwnerOf(2)}), map[]).t
    ensures OpenCommit(w.t, OwnerOf(2), InFlight(READ, true), true, 0) == (w.t.(s := Delegated()), Ok)
  {
    var s := w.t.s;
    assert IsOpenOf(s, "/f", OwnerOf(2), 1);
    assert FindOpen(s, "/f", OwnerOf(2), 0) == Some(1);
    assert PlaceOpen(s, OwnerOf(2), InFlight(READ, true), 0) == Reading(2, {OwnerOf(2)});
    assert DelegsOf(Reading(2, {OwnerOf(2)}), 2) == {};
    assert Grant(w.t.cl, Reading(2, {OwnerOf(2)}), "/f", OwnerOf(2), READ) == Delegated();
    assert Touch(w.t.(s := Delegated()), 2).cl == w.t.cl;
  }

  lemma GrantedMeanwhile()
    ensures Reachable(TwoClients(Delegated(), map[OwnerOf(1) := InFlight(WRITE, true)]))
  {
    WriterCleared();
    var writing := map[OwnerOf(1) := InFlight(WRITE, true)];
    ReaderCleared(Reading(1, {OwnerOf(2)}), writing);
    var w := TwoClients(Reading(1, {OwnerOf(2)}), writing[OwnerOf(2) := InFlight(READ, true)]);
    Then(w, OpenEnd(OwnerOf(2), true, 0));
    GrantHappens(w);
    assert w.pending - {OwnerOf(2)} == writing;
  }

  lemma WriterFalsifies(t: Tables)
    requires t == TwoClients(Delegated(), map[]).t
    ensures var s := OpenCommit(t, OwnerOf(1), InFlight(WRITE, true), false, 0).0.s; !DelegationsOk(s.opens, s.delegs)
  {
    assert forall x :: !IsOpenOf(Delegated(), "/f", OwnerOf(1), x);
    assert OpensOf(Delegated(), 1) == {};
    assert 2 in Disturbed(Delegated(), "/f", Some(1));
    CommitBreaksDelegations(t, OwnerOf(1), InFlight(WRITE, true), false, 0);
  }

  /** A reachable state in which client 1 writes a file that client 2 holds a delegation on. */
  lemma DelegationRace()
    ensures exists w :: Reachable(w) && !DelegationsOk(w.t.s.opens, w.t.s.delegs)
  {
    GrantedMeanwhile();
    var w := TwoClients(Delegated(), map[OwnerOf(1) := InFlight(WRITE, true)]);
    Then(w, OpenEnd(OwnerOf(1), false, 0));
    WriterFalsifies(w.t);
    assert Next(w, OpenEnd(OwnerOf(1), false, 0)).t == OpenCommit(w.t, OwnerOf(1), InFlight(WRITE, true), false, 0).0;
  }

  // ---------- a commit for a client that was released meanwhile ----------

  /** An OPEN's commit keeps state with confirmed clients exactly when its own client still is one. */
  lemma CommitOwnedIff(t: Tables, o: Owner, q: Pending, delegations: bool, pick: Other)
    requires Owned(t) && OpenStatus(t.s, o, q) == Ok
    ensures Owned(OpenCommit(t, o, q, delegations, pick).0) <==> o.client in t.cl.confirmed
  {
    if o.client in t.cl.confirmed {
      CommitOwned(t, o, q, delegations, pick);
    } else {
      CommitShape(t, o, q, delegations, pick);
      var x := PlacedOpen(t.s, o, q, pick);
      var t' := OpenCommit(t, o, q, delegations, pick).0;
      assert x in t'.s.opens && t'.s.opens[x].owner == o;
      assert t'.cl.confirmed == t.cl.confirmed;
    }
  }

  lemma SweptAway()
    ensures var t := OneClient().t.(now := 90); Sweep(t).s == t.s && Sweep(t).cl.confirmed == {}
  {
    var t := OneClient().t.(now := 90);
    assert SweptTombs(t.s, 90, 90) == t.s;
    assert Revoke(t.s, ForfeitOf(t.s, t.s.delegs.Keys, 90, 90), 90) == t.s;
    assert SweptClients(t.cl, 90, 90) == t.cl;
    assert LapsedClients(t) == {1};
    assert StateidsOf(t.s, {1}) == {};
    assert WithoutStateOf(Tombstoned(t.s, {1}, 90), {1}) == t.s;
  }

  lemma ReaderInFlight()
    ensures Reachable(OneClient().(pending := map[OwnerOf(1) := InFlight(READ, true)]))
  {
    OneJoins();
    var begin := OpenBegin(OwnerOf(1), "/f", READ, NONE, false, 0);
    var w1 := Next(OneClient(), begin);
    Then(OneClient(), begin);
    assert OpenCheck(NoState(), OwnerOf(1), "/f", READ, NONE, false, 0).0 == Some(InFlight(READ, false));
    assert w1.t.cl == OneClient().t.cl;
    assert w1 == OneClient().(pending := map[OwnerOf(1) := InFlight(READ, false)]);
    Then(w1, OpenRecall(OwnerOf(1)));
    assert Next(w1, OpenRecall(OwnerOf(1))) == OneClient().(pending := map[OwnerOf(1) := InFlight(READ, true)]);
  }

  lemma SweptMeanwhile() returns (w: World)
    ensures Reachable(w) && w.pending == map[OwnerOf(1) := InFlight(READ, true)]
    ensures w.t.s == NoState() && w.t.cl.confirmed == {}
  {
    ReaderInFlight();
    var w1 := OneClient().(pending := map[OwnerOf(1) := InFlight(READ, true)]);
    Then(w1, Plain(Tick(90)));
    var w2 := Next(w1, Plain(Tick(90)));
    Then(w2, Plain(SweepExpired));
    w := Next(w2, Plain(SweepExpired));
    assert w == w2.(t := Sweep(w2.t));
    SweptAway();
  }

  /** A reachable state holding an open of a client whose lease had already expired. */
  lemma LateCommitRace()
    ensures exists w :: Reachable(w) && !Owned(w.t)
  {
    var w := SweptMeanwhile();
    assert OpensOf(NoState(), 1) == {};
    CommitOwnedIff(w.t, OwnerOf(1), InFlight(READ, true), false, 0);
    Then(w, OpenEnd(OwnerOf(1), false, 0));
  }

  // ---------- OPENs with nothing in the way ----------

  function Asking(p: Path, access: Bits, deny: Bits, cleared: bool): Pending {
    Pending(p, access, deny, false, access, deny, cleared)
  }

  /** Nobody has the path open, nothing is delegated, and no OPEN is in flight. */
  ghost predicate Free(w: World, o: Owner, p: Path) {
    && w.pending == map[] && w.t.s.delegs == map[] && o.kind == OpenOwner && o.client in w.t.cl.confirmed
    && forall x :: x in w.t.s.opens ==> w.t.s.opens[x].path != p
  }

  ghost predicate Answers(cl: Clients, c: ClientId) { c in cl.all && cl.all[c].cbUp }

  /** Nobody comes or goes. */
  ghost predicate SameClients(cl: Clients, cl': Clients) {
    cl'.confirmed == cl.confirmed && forall c :: Answers(cl, c) ==> Answers(cl', c)
  }

  lemma TouchSame(t: Tables, c: ClientId)
    ensures SameClients(t.cl, Touch(t, c).cl) && Touch(t, c).s == t.s
  {}

  lemma FreeBegins(w: World, o: Owner, p: Path, access: Bits, deny: Bits, w': World)
    requires Free(w, o, p) && access != NONE && w' == Next(w, OpenBegin(o, p, access, deny, false, 0))
    ensures w'.pending == map[o := Asking(p, access, deny, false)]
    ensures w'.t.s == w.t.s && SameClients(w.t.cl, w'.t.cl)
  {
    TouchSame(w.t, o.client);
    assert forall x :: !IsOpenOf(w.t.s, p, o, x);
    assert OpenCheck(w.t.s, o, p, access, deny, false, 0).0 == Some(Asking(p, access, deny, false));
  }

  lemma RecallsNothing(t: Tables, p: Path, except: Option<ClientId>)
    requires Disturbed(t.s, p, except) == {}
    ensures Recall(t, p, except) == (t, Ok) && RecallJobs(t.s, p, except) == {}
  {
    assert RecallJobs(t.s, p, except) == {} && Blockers(t, p, except) == {};
    assert ForfeitOf(t.s, {}, t.now, t.recallWait) == {};
    assert Revoke(t.s, {}, t.now) == t.s by { assert t.s.revoked + Stamped({}, t.now) == t.s.revoked; }
    assert MarkRecalling(t.s, {}, t.now) == t.s by { assert MarkRecalling(t.s, {}, t.now).delegs == t.s.delegs; }
  }

  /** The OPEN passes its check and its recall. */
  lemma FreeClears(w: World, o: Owner, p: Path, access: Bits, deny: Bits) returns (w': World)
    requires Reachable(w) && Free(w, o, p) && access != NONE
    ensures Reachable(w') && w'.pending == map[o := Asking(p, access, deny, true)]
    ensures w' == Next(Next(w, OpenBegin(o, p, access, deny, false, 0)), OpenRecall(o))
    ensures w'.t.s == w.t.s && SameClients(w.t.cl, w'.t.cl)
  {
    var w1 := Next(w, OpenBegin(o, p, access, deny, false, 0));
    Then(w, OpenBegin(o, p, access, deny, false, 0));
    FreeBegins(w, o, p, access, deny, w1);
    w' := Next(w1, OpenRecall(o));
    Then(w1, OpenRecall(o));
    assert w1.pending[o := Asking(p, access, deny, true)] == map[o := Asking(p, access, deny, true)];
    RecallsNothing(w1.t, p, Some(o.client));
  }

  /** And commits. */
  lemma FreeOpens(w: World, o: Owner, p: Path, access: Bits, deny: Bits, ds: bool) returns (w': World, cl: Clients)
    requires Reachable(w) && Free(w, o, p) && access != NONE && |OpensOf(w.t.s, o.client)| < MAX_OPENS_PER_CLIENT
    ensures Reachable(w') && w'.pending == map[] && w' == ApplyOp(w, WholeOpen(o, p, access, deny, false, ds, 0))
    ensures SameClients(w.t.cl, w'.t.cl) && SameClients(w.t.cl, cl)
    ensures var s1 := WithOpen(w.t.s, o, Asking(p, access, deny, true));
            w'.t.s == if ds then Grant(cl, s1, p, o, access) else s1
  {
    var w1 := FreeClears(w, o, p, access, deny);
    cl := w1.t.cl;
    w' := Next(w1, OpenEnd(o, ds, 0));
    Then(w1, OpenEnd(o, ds, 0));
    FreeCommits(w1, o, Asking(p, access, deny, true), ds, w');
  }

  lemma FreeCommits(w: World, o: Owner, q: Pending, ds: bool, w': World)
    requires w.pending == map[o := q] && q.cleared && q.unionAccess != NONE && w' == Next(w, OpenEnd(o, ds, 0))
    requires |OpensOf(w.t.s, o.client)| < MAX_OPENS_PER_CLIENT
    requires forall x | x in w.t.s.opens :: w.t.s.opens[x].path != q.path
    ensures w'.pending == map[] && SameClients(w.t.cl, w'.t.cl)
    ensures var s1 := WithOpen(w.t.s, o, q); w'.t.s == if ds then Grant(w.t.cl, s1, q.path, o, q.unionAccess) else s1
  {
    assert forall x :: !IsOpenOf(w.t.s, q.path, o, x);
    assert OpenStatus(w.t.s, o, q) == Ok;
    TouchSame(w.t.(s := w'.t.s), o.client);
    assert w.pending - {o} == map[];
  }

  // ---------- a RENAME that merges reservations ----------

  /** Client 2 reads /f, client 1 writes /g and denies reading, and /g is renamed to /f. */
  lemma MergeRace()
    ensures exists w :: Reachable(w) && !SharesOk(w.t.s.opens)
  {
    FirstRead();
    var w0 := TwoClients(Reading(1, {OwnerOf(2)}), map[]);
    assert OpensOf(w0.t.s, 1) == {};
    var w, _ := FreeOpens(w0, OwnerOf(1), "/g", WRITE, READ, false);
    assert w.t.s.opens[1].path == "/f" && w.t.s.opens[1].access == READ;
    MergeClashes(w);
  }

  lemma MergeClashes(w: World)
    requires Reachable(w) && 1 in w.t.s.opens && 2 in w.t.s.opens
    requires w.t.s.opens[1].path == "/f" && w.t.s.opens[1].access == READ
    requires w.t.s.opens[2].path == "/g" && w.t.s.opens[2].deny == READ
    ensures exists w :: Reachable(w) && !SharesOk(w.t.s.opens)
  {
    var w' := Next(w, RenameTo("/g", "/f"));
    Then(w, RenameTo("/g", "/f"));
    assert w'.t.s.opens[1].path == w'.t.s.opens[2].path;
  }

  // ---------- a RENAME between an OPEN's check and its commit ----------

  const BOTH := Bits(true, true)
  const LOCKER := Owner(LockOwner, 1, "locker")
  const BYTE := LockRange(0, 1, false, true)

  /** Client 1 has /a open for both, and a write lock on it. */
  function Locking(p: Path, ok: set<Owner>): State {
    var opens := map[1 := Open(1, OwnerOf(1), p, BOTH, NONE)];
    NoState().(next := 2, okOwners := ok, opens := opens, locks := map[2 := Lock(1, 1, LOCKER, 1, p, [BYTE])])
  }

  lemma OpensForBoth() returns (w: World)
    ensures Reachable(w) && w.pending == map[] && w.t.cl.confirmed == {1}
    ensures w.t.s == NoState().(next := 1, okOwners := {OwnerOf(1)}, opens := Locking("/a", {}).opens)
  {
    OneJoins();
    assert OpensOf(NoState(), 1) == {};
    var w1, _ := FreeOpens(OneClient(), OwnerOf(1), "/a", BOTH, NONE, false);
    assert w1.t.s.opens == Locking("/a", {}).opens;
    var confirm := Sequenced(1, 1, "/a", ConfirmOpen);
    w := Next(w1, confirm);
    Then(w1, confirm);
    assert SeqOwner(w1.t.s, 1) == Some(OwnerOf(1));
    TouchOwnerFrame(w1.t, 1);
    assert ConfirmStatus(w1.t.s, 1, 1, "/a") == Ok;
  }

  lemma Locks() returns (w: World)
    ensures Reachable(w) && w.pending == map[] && w.t.cl.confirmed == {1}
    ensures w.t.s == Locking("/a", {OwnerOf(1)})
  {
    var w1 := OpensForBoth();
    var lock := Sequenced(1, 1, "/a", LockFirst(LOCKER, BYTE));
    w := Next(w1, lock);
    Then(w1, lock);
    assert SeqOwner(w1.t.s, 1) == Some(OwnerOf(1));
    assert LockNewStatus(w1.t.s, 1, 1, LOCKER, "/a", BYTE) == Ok;
    LockNewEffect(w1.t, 1, 1, LOCKER, "/a", BYTE);
    assert w.t.s == WithLock(w1.t.s, LOCKER, 1, "/a", BYTE);
  }

  /** Its OPEN of /b for reading is checked, and then /a is renamed to /b. */
  lemma RenamedMeanwhile() returns (w: World)
    ensures Reachable(w) && w.pending == map[OwnerOf(1) := Asking("/b", READ, NONE, true)]
    ensures w.t.s == Locking("/b", {OwnerOf(1)})
  {
    var w1 := Locks();
    var w2 := FreeClears(w1, OwnerOf(1), "/b", READ, NONE);
    w := Next(w2, RenameTo("/a", "/b"));
    Then(w2, RenameTo("/a", "/b"));
    LockingMoves();
  }

  lemma LockingMoves()
    ensures Rename(Locking("/a", {OwnerOf(1)}), "/a", "/b") == Locking("/b", {OwnerOf(1)})
  {
    var s := Locking("/a", {});
    assert MovedOpens(s.opens, "/a", "/b") == Locking("/b", {}).opens;
    assert MovedLocks(s.locks, "/a", "/b") == Locking("/b", {}).locks;
    assert MovedDelegs(s.delegs, "/a", "/b") == map[];
  }

  /** A reachable state in which a write lock stands on an open for reading only. */
  lemma NarrowedRace()
    ensures exists w :: Reachable(w) && !LocksBacked(w.t.s.opens, w.t.s.locks)
  {
    var w := RenamedMeanwhile();
    Then(w, OpenEnd(OwnerOf(1), false, 0));
    CommitNarrows(w.t);
  }

  lemma CommitNarrows(t: Tables)
    requires t.s == Locking("/b", {OwnerOf(1)})
    ensures var s := OpenCommit(t, OwnerOf(1), Asking("/b", READ, NONE, true), false, 0).0.s;
            !LocksBacked(s.opens, s.locks)
  {
    var s, o, q := t.s, OwnerOf(1), Asking("/b", READ, NONE, true);
    assert IsOpenOf(s, "/b", o, 1);
    assert RangesExceed([BYTE], READ) by { assert [BYTE][0].write; }
    assert 2 in s.locks && s.locks[2].open == 1;
    assert LocksBlockDowngrade(s, 1, READ);
    assert OpenStatus(s, o, q) == Ok;
    CommitUnbacks(t, o, q, false, 1, 0);
  }

  // ---------- a directory RENAME that brings a delegation to a writer ----------

  /** What the run below needs to know of its states. */
  ghost predicate Ready(w: World, opens: nat) {
    && Reachable(w) && WhollyReachable(w) && w.pending == map[] && w.t.cl.confirmed == {1, 2} && Answers(w.t.cl, 2)
    && w.t.s.next == opens && forall x | x in w.t.s.opens :: 1 <= x <= opens
  }

  lemma OpensNext(w: World, o: Owner, p: Path, access: Bits, ds: bool) returns (w': World, cl: Clients)
    requires Ready(w, 0) || Ready(w, 1) || Ready(w, 2)
    requires Free(w, o, p) && access != NONE
    ensures Reachable(w') && WhollyReachable(w') && w'.pending == map[]
    ensures w'.t.cl.confirmed == {1, 2} && Answers(w'.t.cl, 2) && Answers(cl, 2)
    ensures var s1 := WithOpen(w.t.s, o, Asking(p, access, NONE, true));
            w'.t.s == if ds then Grant(cl, s1, p, o, access) else s1
  {
    assert OpensOf(w.t.s, o.client) <= {1, 2};
    FewOpens(OpensOf(w.t.s, o.client));
    w', cl := FreeOpens(w, o, p, access, NONE, ds);
    WhollyThen(w, WholeOpen(o, p, access, NONE, false, ds, 0));
  }

  lemma FewOpens(xs: set<Other>)
    requires xs <= {1, 2}
    ensures |xs| <= 2
  {
    assert xs == {} || xs == {1} || xs == {2} || xs == {1, 2};
  }

  /** Client 2 has opened a file before, so that its owner is known. */
  lemma OwnerKnown() returns (w: World)
    ensures Ready(w, 1) && w.t.s.delegs == map[] && OwnerOf(2) in w.t.s.okOwners
    ensures forall x | x in w.t.s.opens :: w.t.s.opens[x].path == "/f" && w.t.s.opens[x].owner == OwnerOf(2)
  {
    TwoJoin();
    var w0 := TwoClients(NoState(), map[]);
    var w1, cl := OpensNext(w0, OwnerOf(2), "/f", READ, false);
    w := Confirms(w1);
  }

  lemma Confirms(w: World) returns (w': World)
    requires Ready(w, 1) && w.t.s.delegs == map[] && 1 in w.t.s.opens && 1 !in w.t.s.expired
    requires w.t.s.opens[1] == Open(1, OwnerOf(2), "/f", READ, NONE)
    ensures Ready(w', 1) && w'.t.s == w.t.s.(okOwners := w.t.s.okOwners + {OwnerOf(2)})
  {
    var confirm := Sequenced(1, 1, "/f", ConfirmOpen);
    w' := Next(w, confirm);
    Also(w, confirm);
    assert SeqOwner(w.t.s, 1) == Some(OwnerOf(2));
    TouchSame(w.t, 2);
    assert ConfirmStatus(w.t.s, 1, 1, "/f") == Ok;
  }

  /** Client 1 writes /e/f, and client 2 is given a delegation on /d/f. */
  lemma DelegatedBelow() returns (w: World)
    ensures WhollyReachable(w) && 2 in w.t.s.opens && w.t.s.opens[2].path == "/e/f"
    ensures w.t.s.opens[2].owner == OwnerOf(1) && w.t.s.opens[2].access.w
    ensures 4 in w.t.s.delegs && w.t.s.delegs[4].path == "/d/f" && w.t.s.delegs[4].client == 2
    ensures forall d | d in w.t.s.delegs :: d == 4
  {
    var w1 := WritesBelow();
    var cl;
    w, cl := OpensNext(w1, OwnerOf(2), "/d/f", READ, true);
    Granted(cl, WithOpen(w1.t.s, OwnerOf(2), Asking("/d/f", READ, NONE, true)));
  }

  lemma WritesBelow() returns (w: World)
    ensures Ready(w, 2) && w.t.s.delegs == map[] && OwnerOf(2) in w.t.s.okOwners
    ensures 2 in w.t.s.opens && w.t.s.opens[2] == Open(1, OwnerOf(1), "/e/f", WRITE, NONE)
    ensures forall x | x in w.t.s.opens :: w.t.s.opens[x].path != "/d/f"
  {
    var w1 := OwnerKnown();
    var cl;
    w, cl := OpensNext(w1, OwnerOf(1), "/e/f", WRITE, false);
  }

  lemma Granted(cl: Clients, s: State)
    requires Answers(cl, 2) && OwnerOf(2) in s.okOwners && s.delegs == map[]
    requires forall x | x in s.opens && s.opens[x].path == "/d/f" :: s.opens[x].owner == OwnerOf(2)
    ensures Grant(cl, s, "/d/f", OwnerOf(2), READ) == WithDeleg(s, 2, "/d/f")
  {
    assert DelegsOf(s, 2) == {};
  }

  /**
   A run of whole operations after which client 1 writes a file that client 2 holds a
   delegation on: /d is renamed to /e, whose file was removed while client 1 had it open, and
   the recalls ask about the two directories only.
   */
  lemma DirectoryRace()
    ensures exists w :: WhollyReachable(w) && !DelegationsOk(w.t.s.opens, w.t.s.delegs)
  {
    var w := DelegatedBelow();
    WhollyThen(w, WholeRename("/d", "/e"));
    DirectoryMoves(w);
  }

  lemma DirectoryMoves(w: World)
    requires 2 in w.t.s.opens && w.t.s.opens[2].path == "/e/f"
    requires w.t.s.opens[2].owner == OwnerOf(1) && w.t.s.opens[2].access.w
    requires 4 in w.t.s.delegs && w.t.s.delegs[4].path == "/d/f" && w.t.s.delegs[4].client == 2
    requires forall d | d in w.t.s.delegs :: d == 4
    ensures var s := ApplyOp(w, WholeRename("/d", "/e")).t.s; !DelegationsOk(s.opens, s.delegs)
  {
    var w1 := RecallFor(w, "/d", None);
    RecallsNothing(w.t, "/d", None);
    RecallsNothing(w1.t, "/e", None);
    assert w1.t == w.t && RecallFor(w1, "/e", None).t == w.t;
    var s := ApplyOp(w, WholeRename("/d", "/e")).t.s;
    assert s == Rename(w.t.s, "/d", "/e");
    assert "/d" + "/" <= "/d/f" && "/e" + "/d/f"[2..] == "/e/f";
    assert s.delegs[4].path == "/e/f" && s.opens[2].path == "/e/f";
  }
}
