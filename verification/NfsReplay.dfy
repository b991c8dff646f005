/**
 The replay caches in front of the NFSv4 tables (nfs4/ops_state.go, open, close and
 withSeqid; nfs4/ops_lock.go, lock, lockU and withTwoSeqids; nfs4/state.go, ownerOf and
 ownerForStateid).

 A request that carries sequence ids finds its owner, renews that client's lease, and
 holds the owner's mutex while its body runs.  The body is one step on the tables, or the
 phases of an OPEN, or fails before it gets that far; its status is the reply's.  Anything
 may come between, except other requests of the same owner.
 */
module NfsReplay {
  import opened LockRanges
  import opened NfsTables
  import opened NfsRuns
  import opened NfsKept
  import opened NfsRouting
  import opened Seqid
  import opened Words

  type Owner = NfsTables.Owner
  type Other = NfsTables.Other

  /** A request as it names its owner and what it asks for. */
  datatype Call =
    | Opening(client: ClientId, key: string, seqid: Word, path: Path, access: Bits, deny: Bits, truncating: bool)
    | OnStateid(x: Other, seqid: Word, stateSeq: nat, path: Path, sop: SeqOp)
    | FirstLock(x: Other, client: ClientId, key: string, openSeq: Word, lockSeq: Word,
                stateSeq: nat, path: Path, r: LockRange)

  /** A request whose body is running: what it may do, and its status once that is known. */
  datatype Job = Job(q: Request, body: Step, status: Option<Stat>)

  /** `busy` are the owners whose mutex is held, with the job that holds it. */
  datatype Server = Server(w: World, views: Views, busy: map<Name, Job>)

  datatype Event =
    | Enter(call: Call)
    | Does(step: Step)
    | Fails(o: Name, st: Stat)
    | Leave(o: Name, body: seq<nat>, fh: Option<string>)

  /** The result of a body that has not run yet. */
  const UNKNOWN: Reply := Refusal(Seqid.Ok)

  function OpNumber(op: SeqOp): nat {
    match op
    case ConfirmOpen => 20
    case Downgrade(_, _) => 21
    case CloseOpen => 4
    case LockFirst(_, _) => OP_LOCK
    case LockAgain(_) => OP_LOCK
    case Unlock(_) => 14
  }

  function StatOf(st: Status): Stat {
    match st
    case Ok => Seqid.Ok
    case BadStateid => Seqid.BadStateid
    case StaleClientid => Seqid.StaleClientid
    case Resource => Seqid.Resource
    case Inval => Stat.Other(22)
    case OldStateid => Stat.Other(10024)
    case Expired => Stat.Other(10011)
    case AdminRevoked => Stat.Other(10047)
    case ClidInUse => Stat.Other(10017)
    case ShareDenied => Stat.Other(10015)
    case Delay => Stat.Other(10008)
    case LocksHeld => Stat.Other(10037)
    case OpenMode => Stat.Other(10038)
    case Denied => Stat.Other(10010)
  }

  function Owners(q: Request): set<Name> {
    match q
    case One(who, _, _, _) => {who}
    case Two(o, l, _, _, _) => {o, l}
  }

  /** The streams a call is checked against, unless its client or stateid is unknown. */
  function Found(w: World, call: Call): Option<Request> {
    match call
    case Opening(client, key, seqid, _, _, _, _) =>
      if client in w.t.cl.confirmed
      then Some(One(Owner.Owner(OpenOwner, client, key), OP_OPEN, seqid, UNKNOWN)) else None
    case OnStateid(x, seqid, _, _, sop) =>
      var o := SeqOwner(w.t.s, x);
      if o.Some? && !sop.LockFirst? then Some(One(o.value, OpNumber(sop), seqid, UNKNOWN)) else None
    case FirstLock(x, client, key, so, sl, _, _, _) =>
      if x in w.t.s.opens && client in w.t.cl.confirmed
      then Some(Two(w.t.s.opens[x].owner, Owner.Owner(LockOwner, client, key), so, sl, UNKNOWN)) else None
  }

  function BodyOf(call: Call): Step {
    match call
    case Opening(client, key, _, p, access, deny, trunc) =>
      OpenBegin(Owner.Owner(OpenOwner, client, key), p, access, deny, trunc, 0)
    case OnStateid(x, _, n, p, sop) => Sequenced(x, n, p, sop)
    case FirstLock(x, client, key, _, _, n, p, r) =>
      Sequenced(x, n, p, LockFirst(Owner.Owner(LockOwner, client, key), r))
  }

  ghost function Renewed(w: World, c: ClientId): World { Next(w, Plain(RenewLease(c))) }

  ghost function RenewedBy(w: World, q: Request): World {
    match q
    case One(who, _, _, _) => Renewed(w, who.client)
    case Two(o, l, _, _, _) => Renewed(Renewed(w, o.client), l.client)
  }

  function Holding(busy: map<Name, Job>, job: Job): map<Name, Job> {
    map o | o in busy.Keys + Owners(job.q) :: if o in Owners(job.q) then job else busy[o]
  }

  /** Where a call leads, and its reply when the body is not run. */
  datatype Entered = Entered(sv: Server, reply: Option<Reply>)

  ghost function EnterCall(sv: Server, call: Call): Entered {
    var f := Found(sv.w, call);
    if f.None? || !(Owners(f.value) !! sv.busy.Keys) then Entered(sv, None)
    else
      var a, sv1 := Serve(sv.views, f.value), sv.(w := RenewedBy(sv.w, f.value));
      if a.ran then Entered(sv1.(busy := Holding(sv.busy, Job(f.value, BodyOf(call), None))), None)
      else Entered(sv1, Some(a.reply))
  }

  /** The request of `o` returns: its result is kept, or rolled back, and the mutexes are freed. */
  function LeaveCall(sv: Server, o: Name, body: seq<nat>, fh: Option<string>): Server {
    if o !in sv.busy || sv.busy[o].status.None? then sv
    else
      var q := Answered(sv.busy[o], body, fh);
      sv.(views := Serve(sv.views, q).views, busy := map k | k in sv.busy && k !in Owners(q) :: sv.busy[k])
  }

  /** The request with the reply it is given: the body's status, and the rest of the encoding. */
  function Answered(job: Job, body: seq<nat>, fh: Option<string>): Request
    requires job.status.Some?
  {
    job.q.(outcome := Reply(job.status.value, body, fh))
  }

  ghost function SeqStatus(t: Tables, x: Other, n: nat, p: Path, op: SeqOp): Status
    requires WellFormed(t.s, op)
  {
    match op
    case ConfirmOpen => OpenConfirm(t, x, n, p).1
    case Downgrade(access, deny) => OpenDowngrade(t, x, n, p, access, deny).1
    case CloseOpen => Close(t, x, n, p).1
    case LockFirst(lo, r) => LockNew(t, x, n, lo, p, r).1
    case LockAgain(r) => LockMore(t, x, n, p, r).1
    case Unlock(r) => LockU(t, x, n, p, r).1
  }

  /** The owner whose job a step is part of. */
  function Actor(w: World, step: Step): Option<Name> {
    match step
    case Sequenced(x, _, _, _) => SeqOwner(w.t.s, x)
    case OpenBegin(o, _, _, _, _, _) => Some(o)
    case OpenRecall(o) => Some(o)
    case OpenEnd(o, _, _) => Some(o)
    case _ => None
  }

  predicate PartOf(step: Step, body: Step) {
    SameRequest(step, body) || (body.OpenBegin? && (step.OpenRecall? || step.OpenEnd?) && step.o == body.o)
  }

  /** The status with which a step ends its job, if it does. */
  ghost function Ends(w: World, step: Step): Option<Stat>
    requires Enabled(w, step)
  {
    match step
    case Sequenced(x, n, p, op) => Some(StatOf(SeqStatus(w.t, x, n, p, op)))
    case OpenBegin(o, p, access, deny, trunc, pick) =>
      var c := OpenCheck(w.t.s, o, p, access, deny, trunc, pick); if c.0.None? then Some(StatOf(c.1)) else None
    case OpenRecall(o) =>
      var q := w.pending[o];
      if NeedsRecall(q) && Recall(w.t, q.path, Some(o.client)).1 != NfsTables.Ok then Some(StatOf(Delay)) else None
    case OpenEnd(o, ds, pick) => Some(StatOf(OpenCommit(w.t, o, w.pending[o], ds, pick).1))
    case _ => None
  }

  function Finished(busy: map<Name, Job>, job: Job, st: Option<Stat>): map<Name, Job> {
    map k | k in busy :: if k in Owners(job.q) then job.(status := st) else busy[k]
  }

  /** A step of a job that has not ended yet. */
  ghost function Work(sv: Server, step: Step): Server {
    var o := Actor(sv.w, step);
    if o.None? || o.value !in sv.busy then sv
    else
      var job := sv.busy[o.value];
      if job.status.Some? || !PartOf(step, job.body) || !Enabled(sv.w, step) then sv
      else sv.(w := Next(sv.w, step), busy := Finished(sv.busy, job, Ends(sv.w, step)))
  }

  /** RELEASE_LOCKOWNER takes the mutex itself, and deletes the owner with its stream. */
  ghost function Release(sv: Server, lo: Owner): Server {
    if lo in sv.busy then sv
    else if ReleaseLockOwner(sv.w.t, lo).1 == NfsTables.Ok
    then sv.(w := Next(sv.w, Plain(ReleaseOwner(lo))), views := sv.views - {lo})
    else sv.(w := Next(sv.w, Plain(ReleaseOwner(lo))))
  }

  ghost function Do(sv: Server, step: Step): Server {
    match step
    case Plain(ReleaseOwner(lo)) => Release(sv, lo)
    case Plain(_) => sv.(w := Next(sv.w, step))
    case Disturb(_, _) => sv.(w := Next(sv.w, step))
    case RenameTo(_, _) => sv.(w := Next(sv.w, step))
    case OpenAbort(_) => sv
    case _ => Work(sv, step)
  }

  /** A body that fails by itself: a bad argument, or a file-system call inside OPEN. */
  ghost function Fail(sv: Server, o: Name, st: Stat): Server {
    if o !in sv.busy || sv.busy[o].status.Some? || st.Ok? then sv
    else sv.(w := Next(sv.w, OpenAbort(o)), busy := Finished(sv.busy, sv.busy[o], Some(st)))
  }

  ghost function Handle(sv: Server, e: Event): Server {
    match e
    case Enter(call) => EnterCall(sv, call).sv
    case Does(step) => Do(sv, step)
    case Fails(o, st) => Fail(sv, o, st)
    case Leave(o, body, fh) => LeaveCall(sv, o, body, fh)
  }

  ghost function HandleAll(sv: Server, events: seq<Event>): Server
    decreases |events|
  {
    if events == [] then sv else HandleAll(Handle(sv, events[0]), events[1..])
  }

  ghost function Boot(lease: nat, recallWait: nat): Server { Server(Start(lease, recallWait), NOBODY, map[]) }

  // ---------- the tables under the caches ----------

  /** `w` can be reached from `w0` by steps of the tables alone. */
  ghost predicate Reached(w0: World, w: World) { exists steps :: Run(w0, steps) == w }

  lemma ReachedNext(w0: World, w: World, step: Step)
    requires Reached(w0, w)
    ensures Reached(w0, Next(w, step))
  {
    var steps :| Run(w0, steps) == w;
    assert (steps + [step])[..|steps|] == steps;
    assert Run(w0, steps + [step]) == Next(w, step);
  }

  lemma EnterReached(w0: World, sv: Server, call: Call)
    requires Reached(w0, sv.w)
    ensures Reached(w0, EnterCall(sv, call).sv.w)
  {
    var f := Found(sv.w, call);
    if f.Some? {
      match f.value
      case One(who, _, _, _) => ReachedNext(w0, sv.w, Plain(RenewLease(who.client)));
      case Two(o, l, _, _, _) =>
        ReachedNext(w0, sv.w, Plain(RenewLease(o.client)));
        ReachedNext(w0, Renewed(sv.w, o.client), Plain(RenewLease(l.client)));
    }
  }

  /** A step of the server is that step of the tables, or none. */
  lemma DoWorld(sv: Server, step: Step)
    ensures Do(sv, step).w == sv.w || Do(sv, step).w == Next(sv.w, step)
  {}

  lemma HandleReached(w0: World, sv: Server, e: Event)
    requires Reached(w0, sv.w)
    ensures Reached(w0, Handle(sv, e).w)
  {
    match e
    case Enter(call) => EnterReached(w0, sv, call);
    case Does(step) =>
      DoWorld(sv, step);
      ReachedNext(w0, sv.w, step);
    case Fails(o, _) => ReachedNext(w0, sv.w, OpenAbort(o));
    case Leave(_, _, _) =>
  }

  lemma {:induction false} AllReached(w0: World, sv: Server, events: seq<Event>)
    requires Reached(w0, sv.w)
    ensures Reached(w0, HandleAll(sv, events).w)
    decreases |events|
  {
    if events != [] {
      HandleReached(w0, sv, events[0]);
      AllReached(w0, Handle(sv, events[0]), events[1..]);
    }
  }

  /**
   With the replay caches in front, the tables still only do what some run of the tables
   does, so all that is proved of their runs is proved of the server.
   */
  lemma ServerRefinesTables(lease: nat, wait: nat, events: seq<Event>)
    ensures exists steps :: Run(Start(lease, wait), steps) == HandleAll(Boot(lease, wait), events).w
  {
    var w0 := Start(lease, wait);
    assert Run(w0, []) == w0;
    AllReached(w0, Boot(lease, wait), events);
  }

  // ---------- what the mutexes keep ----------

  /** Whoever holds a mutex holds all of its request's, and its ids are still in order. */
  ghost predicate BusyOk(sv: Server) {
    forall o | o in sv.busy :: HeldFor(sv, o, sv.busy[o])
  }

  ghost predicate HeldFor(sv: Server, o: Name, job: Job) {
    && o in Owners(job.q) && job.q.Wf() && Serve(sv.views, job.q).ran
    && forall k | k in Owners(job.q) :: k in sv.busy && sv.busy[k] == job
  }

  ghost predicate ServerOk(sv: Server) { Kept(sv.w) && BusyOk(sv) }

  lemma FoundWf(w: World, call: Call)
    requires Kept(w) && Found(w, call).Some?
    ensures Found(w, call).value.Wf()
  {}

  lemma EnterBusy(sv: Server, call: Call)
    requires ServerOk(sv)
    ensures BusyOk(EnterCall(sv, call).sv)
  {
    var f, sv' := Found(sv.w, call), EnterCall(sv, call).sv;
    if f.Some? && sv'.busy != sv.busy {
      FoundWf(sv.w, call);
      HoldingOk(sv, sv', Job(f.value, BodyOf(call), None));
    }
  }

  lemma HoldingOk(sv: Server, sv': Server, job: Job)
    requires BusyOk(sv) && job.q.Wf() && Owners(job.q) !! sv.busy.Keys && Serve(sv.views, job.q).ran
    requires sv'.views == sv.views && sv'.busy == Holding(sv.busy, job)
    ensures BusyOk(sv')
  {
    forall o | o in sv'.busy ensures HeldFor(sv', o, sv'.busy[o]) {
      if o in sv.busy { assert HeldFor(sv, o, sv.busy[o]); }
    }
  }

  /** What a request does depends on the views of its own owners only. */
  lemma ServeLocal(a: Views, b: Views, q: Request)
    requires forall o | o in Owners(q) :: At(a, o) == At(b, o)
    ensures Serve(a, q).ran == Serve(b, q).ran && Serve(a, q).reply == Serve(b, q).reply
  {
    match q
    case One(who, _, _, _) => assert who in Owners(q);
    case Two(o, l, _, _, _) => assert o in Owners(q) && l in Owners(q);
  }

  lemma LeaveBusy(sv: Server, o: Name, body: seq<nat>, fh: Option<string>)
    requires BusyOk(sv)
    ensures BusyOk(LeaveCall(sv, o, body, fh))
  {
    if o in sv.busy && sv.busy[o].status.Some? {
      var sv' := LeaveCall(sv, o, body, fh);
      forall k | k in sv'.busy ensures HeldFor(sv', k, sv'.busy[k]) {
        assert HeldFor(sv, k, sv.busy[k]) && HeldFor(sv, o, sv.busy[o]);
        ServeLocal(sv.views, sv'.views, sv.busy[k].q);
      }
    }
  }

  lemma FinishedBusy(sv: Server, sv': Server, o: Name, st: Option<Stat>)
    requires BusyOk(sv) && o in sv.busy
    requires sv'.views == sv.views && sv'.busy == Finished(sv.busy, sv.busy[o], st)
    ensures BusyOk(sv')
  {
    assert HeldFor(sv, o, sv.busy[o]);
    forall k | k in sv'.busy ensures HeldFor(sv', k, sv'.busy[k]) { assert HeldFor(sv, k, sv.busy[k]); }
  }

  lemma ReleaseBusy(sv: Server, lo: Owner)
    requires BusyOk(sv)
    ensures BusyOk(Release(sv, lo))
  {
    var sv' := Release(sv, lo);
    forall k | k in sv'.busy ensures HeldFor(sv', k, sv'.busy[k]) {
      assert HeldFor(sv, k, sv.busy[k]);
      ServeLocal(sv.views, sv'.views, sv.busy[k].q);
    }
  }

  lemma SameBusy(sv: Server, sv': Server)
    requires BusyOk(sv) && sv'.views == sv.views && sv'.busy == sv.busy
    ensures BusyOk(sv')
  {
    forall k | k in sv'.busy ensures HeldFor(sv', k, sv'.busy[k]) { assert HeldFor(sv, k, sv.busy[k]); }
  }

  lemma DoBusy(sv: Server, step: Step)
    requires BusyOk(sv)
    ensures BusyOk(Do(sv, step))
  {
    var sv' := Do(sv, step);
    if step.Plain? && step.op.ReleaseOwner? {
      ReleaseBusy(sv, step.op.lo);
    } else if sv'.busy == sv.busy {
      SameBusy(sv, sv');
    } else {
      FinishedBusy(sv, sv', Actor(sv.w, step).value, Ends(sv.w, step));
    }
  }

  lemma HandleOk(sv: Server, e: Event)
    requires ServerOk(sv)
    ensures ServerOk(Handle(sv, e))
  {
    WorldStays(sv, e);
    match e
    case Enter(call) => EnterBusy(sv, call);
    case Does(step) => DoBusy(sv, step);
    case Fails(o, st) => if Fail(sv, o, st) != sv { FinishedBusy(sv, Fail(sv, o, st), o, Some(st)); }
    case Leave(o, body, fh) => LeaveBusy(sv, o, body, fh);
  }

  lemma WorldStays(sv: Server, e: Event)
    requires Kept(sv.w)
    ensures Kept(Handle(sv, e).w)
  {
    assert Run(sv.w, []) == sv.w;
    HandleReached(sv.w, sv, e);
    var steps :| Run(sv.w, steps) == Handle(sv, e).w;
    RunKept(sv.w, steps);
  }

  lemma {:induction false} HandleAllOk(sv: Server, events: seq<Event>)
    requires ServerOk(sv)
    ensures ServerOk(HandleAll(sv, events))
    decreases |events|
  {
    if events != [] {
      HandleOk(sv, events[0]);
      HandleAllOk(Handle(sv, events[0]), events[1..]);
    }
  }

  lemma EveryServerOk(lease: nat, wait: nat, events: seq<Event>)
    ensures ServerOk(HandleAll(Boot(lease, wait), events))
  {
    HandleAllOk(Boot(lease, wait), events);
  }

  // ---------- one body, one status ----------

  /** A job that has ended does nothing more: the tables no longer follow its steps, and its status stays. */
  lemma EndedStays(sv: Server, e: Event, o: Name)
    requires ServerOk(sv) && o in sv.busy && sv.busy[o].status.Some?
    ensures var sv' := Handle(sv, e);
            o in sv'.busy ==> sv'.busy[o] == sv.busy[o] || (e.Leave? && e.o in Owners(sv.busy[o].q))
    ensures e.Does? && Actor(sv.w, e.step) == Some(o) ==> Handle(sv, e) == sv
  {
    assert HeldFor(sv, o, sv.busy[o]);
    match e
    case Enter(call) =>
    case Does(step) => OthersWork(sv, step, o);
    case Fails(k, _) => if k in sv.busy { assert HeldFor(sv, k, sv.busy[k]); }
    case Leave(_, _, _) =>
  }

  lemma OthersWork(sv: Server, step: Step, o: Name)
    requires BusyOk(sv) && o in sv.busy && sv.busy[o].status.Some?
    ensures o in Do(sv, step).busy && Do(sv, step).busy[o] == sv.busy[o]
    ensures Actor(sv.w, step) == Some(o) ==> Do(sv, step) == sv
  {
    DoWorks(sv, step);
    var a := Actor(sv.w, step);
    if a.Some? && a.value in sv.busy { assert HeldFor(sv, a.value, sv.busy[a.value]) && HeldFor(sv, o, sv.busy[o]); }
  }

  /** Jobs change by work only. */
  lemma DoWorks(sv: Server, step: Step)
    ensures Do(sv, step).busy == sv.busy || Do(sv, step) == Work(sv, step)
    ensures Actor(sv.w, step).Some? ==> Do(sv, step) == Work(sv, step)
  {}

  /** A sequenced job ends with the status of its one step on the tables, or fails without a step. */
  lemma StatusIsTheSteps(sv: Server, e: Event, o: Name, sv': Server)
    requires BusyOk(sv) && o in sv.busy && sv.busy[o].status.None? && sv.busy[o].body.Sequenced?
    requires sv' == Handle(sv, e)
    ensures o in sv'.busy && sv'.busy[o].status.Some? ==> DoneBy(sv, e, sv', o) || FailedBy(sv, e, sv', o)
  {
    if e.Does? {
      if o in sv'.busy && sv'.busy[o].status.Some? { WorkEnds(sv, e.step, o); }
    } else if e.Fails? {
      FailEnds(sv, e, o);
    } else {
      GateKeeps(sv, e, o);
    }
  }

  /** Entering and leaving end no other job. */
  lemma GateKeeps(sv: Server, e: Event, o: Name)
    requires o in sv.busy && (e.Enter? || e.Leave?)
    ensures o in Handle(sv, e).busy ==> Handle(sv, e).busy[o] == sv.busy[o]
  {}

  lemma FailEnds(sv: Server, e: Event, o: Name)
    requires BusyOk(sv) && o in sv.busy && sv.busy[o].status.None? && e.Fails?
    ensures var sv' := Fail(sv, e.o, e.st); o in sv'.busy && (sv'.busy[o].status.Some? ==> FailedBy(sv, e, sv', o))
  {
    if e.o in sv.busy { assert HeldFor(sv, e.o, sv.busy[e.o]); }
  }

  ghost predicate FailedBy(sv: Server, e: Event, sv': Server, o: Name) {
    e.Fails? && !e.st.Ok? && o in sv'.busy && sv'.busy[o].status == Some(e.st) && sv'.w.t == sv.w.t
  }

  /** The tables did the body, and its status there is the job's. */
  ghost predicate DoneBy(sv: Server, e: Event, sv': Server, o: Name) {
    && e.Does? && e.step.Sequenced? && o in sv.busy && o in sv'.busy && e.step == sv.busy[o].body
    && Enabled(sv.w, e.step) && sv'.w == Next(sv.w, e.step)
    && sv'.busy[o].status == Some(StatOf(SeqStatus(sv.w.t, e.step.x, e.step.seqid, e.step.path, e.step.sop)))
  }

  /** Only a step of its own changes a job. */
  lemma WorkIsOwn(sv: Server, step: Step, o: Name)
    requires BusyOk(sv) && o in sv.busy && o in Do(sv, step).busy && Do(sv, step).busy[o] != sv.busy[o]
    ensures Actor(sv.w, step).Some? && Actor(sv.w, step).value in sv.busy
    ensures sv.busy[Actor(sv.w, step).value] == sv.busy[o]
    ensures PartOf(step, sv.busy[o].body) && Enabled(sv.w, step) && Do(sv, step) == Work(sv, step)
  {
    DoWorks(sv, step);
    var a := Actor(sv.w, step).value;
    assert HeldFor(sv, a, sv.busy[a]) && HeldFor(sv, o, sv.busy[o]);
  }

  lemma WorkEnds(sv: Server, step: Step, o: Name)
    requires BusyOk(sv) && o in sv.busy && sv.busy[o].status.None? && sv.busy[o].body.Sequenced?
    requires o in Do(sv, step).busy && Do(sv, step).busy[o].status.Some?
    ensures DoneBy(sv, Does(step), Do(sv, step), o)
  {
    WorkIsOwn(sv, step, o);
  }

  // ---------- retransmissions ----------

  /** The same operation with the same ids on the same streams, whatever it would do now. */
  predicate RepeatOf(r: Request, q: Request) { r.(outcome := q.outcome) == q }

  /** The call leads to the streams of `q` as a repeat of it. */
  predicate Routed(w: World, call: Call, q: Request) {
    Found(w, call).Some? && RepeatOf(Found(w, call).value, q)
  }

  /** `q` is the last request accepted on each of its streams, and none of its mutexes is held. */
  ghost predicate Settled(sv: Server, q: Request) {
    && q.Wf() && !NoAdvance(q.outcome.st) && Owners(q) !! sv.busy.Keys
    && forall o | o in Owners(q) :: At(sv.views, o) == Last(SeenBy(o, q)[0])
  }

  /** Until its owners send something new, or the lock-owner is released. */
  ghost predicate Quiet(sv: Server, q: Request, e: Event) {
    match e
    case Enter(call) => var f := Found(sv.w, call); f.Some? ==> Owners(f.value) !! Owners(q) || RepeatOf(f.value, q)
    case Does(step) => step.Plain? && step.op.ReleaseOwner? ==> step.op.lo !in Owners(q)
    case _ => true
  }

  ghost predicate AllQuiet(sv: Server, q: Request, events: seq<Event>)
    decreases |events|
  {
    events == [] || (Quiet(sv, q, events[0]) && AllQuiet(Handle(sv, events[0]), q, events[1..]))
  }

  /** An accepted request settles its streams as it returns. */
  lemma AcceptedSettles(sv: Server, o: Name, body: seq<nat>, fh: Option<string>)
    requires BusyOk(sv) && o in sv.busy && sv.busy[o].status.Some? && !NoAdvance(sv.busy[o].status.value)
    ensures Settled(LeaveCall(sv, o, body, fh), Answered(sv.busy[o], body, fh))
  {
    assert HeldFor(sv, o, sv.busy[o]);
    ServeSettles(sv.views, Answered(sv.busy[o], body, fh));
  }

  lemma ServeSettles(views: Views, q: Request)
    requires q.Wf() && Serve(views, q).ran && !NoAdvance(q.outcome.st)
    ensures forall o | o in Owners(q) :: At(Serve(views, q).views, o) == Last(SeenBy(o, q)[0])
  {}

  /** A repeat of the last accepted request is answered from the cache and changes no state. */
  lemma RepeatAnswered(sv: Server, call: Call, q: Request)
    requires Settled(sv, q) && Routed(sv.w, call, q)
    ensures EnterCall(sv, call) == Entered(sv.(w := RenewedBy(sv.w, q)), Some(q.outcome))
  {
    match q
    case One(who, _, _, _) => assert who in Owners(q);
    case Two(o, l, _, _, _) => assert o in Owners(q) && l in Owners(q);
  }

  lemma StaysSettled(sv: Server, e: Event, q: Request)
    requires BusyOk(sv) && Settled(sv, q) && Quiet(sv, q, e)
    ensures Settled(Handle(sv, e), q)
  {
    match e
    case Enter(call) => if Routed(sv.w, call, q) { RepeatAnswered(sv, call, q); }
    case Does(step) => DoSettled(sv, step, q);
    case Fails(_, _) =>
    case Leave(o, body, fh) => if o in sv.busy { assert HeldFor(sv, o, sv.busy[o]); }
  }

  lemma DoSettled(sv: Server, step: Step, q: Request)
    requires Settled(sv, q) && Quiet(sv, q, Does(step))
    ensures Settled(Do(sv, step), q)
  {
    var sv' := Do(sv, step);
    assert sv'.busy.Keys == sv.busy.Keys;
    forall o | o in Owners(q) ensures At(sv'.views, o) == At(sv.views, o) {}
  }

  // ---------- routing ----------

  /** The client is still known; a lock-owner's stateid, or the open of a first LOCK, is still there. */
  predicate Served(w: World, call: Call, q: Request) {
    && (forall o | o in Owners(q) :: o.client in w.t.cl.confirmed)
    && match call
       case Opening(_, _, _, _, _, _, _) => true
       case OnStateid(x, _, _, _, _) => (forall o | o in Owners(q) :: o.kind == LockOwner ==> x in w.t.s.locks)
       case FirstLock(x, _, _, _, _, _, _, _) => x in w.t.s.opens
  }

  ghost predicate AllServed(sv: Server, call: Call, q: Request, events: seq<Event>)
    decreases |events|
  {
    Served(sv.w, call, q) && (events == [] || AllServed(Handle(sv, events[0]), call, q, events[1..]))
  }

  /** Nothing but a lease renewal. */
  lemma RenewsOnly(w: World, q: Request)
    ensures var w' := RenewedBy(w, q);
            && w'.t.s == w.t.s && w'.t.cl.confirmed == w.t.cl.confirmed
            && w'.pending == w.pending && w'.recalls == w.recalls
  {}

  lemma SameRouted(w: World, w': World, call: Call, q: Request)
    requires Routed(w, call, q) && w'.t.s == w.t.s && w'.t.cl.confirmed == w.t.cl.confirmed
    ensures Routed(w', call, q)
  {}

  lemma StateidRouted(w: World, w': World, call: Call, q: Request)
    requires Kept(w) && Kept(w') && call.OnStateid? && Routed(w, call, q) && Served(w', call, q)
    requires q.One? && Routes(w.t.s, w'.t.s, q.who)
    ensures Routed(w', call, q)
  {
    assert q.who in Owners(q);
    if q.who.kind == OpenOwner {
      LeadsIff(w.t.s, call.x, q.who);
      LeadsIff(w'.t.s, call.x, q.who);
    }
  }

  lemma LockRouted(w: World, w': World, call: Call, q: Request)
    requires Kept(w) && call.FirstLock? && Routed(w, call, q) && Served(w', call, q)
    requires q.Two? && Routes(w.t.s, w'.t.s, q.open)
    ensures Routed(w', call, q)
  {
    assert q.lock in Owners(q);
  }

  lemma OpeningRouted(w: World, w': World, call: Call, q: Request)
    requires call.Opening? && Routed(w, call, q) && Served(w', call, q)
    ensures Routed(w', call, q)
  {
    assert q.who in Owners(q);
  }

  lemma OwnersRoutes(w: World, step: Step, w': World, o: Owner, q: Request)
    requires Kept(w) && w' == Next(w, step) && o in Owners(q) && o.client in w.t.cl.confirmed
    requires o.client in w'.t.cl.confirmed
    requires step.Sequenced? && SeqOwner(w.t.s, step.x).Some? ==> SeqOwner(w.t.s, step.x).value !in Owners(q)
    ensures Routes(w.t.s, w'.t.s, o)
  {
    StepRoutes(w, step, o);
  }

  lemma StepRouted(w: World, step: Step, w': World, call: Call, q: Request)
    requires Kept(w) && Kept(w') && w' == Next(w, step)
    requires Routed(w, call, q) && Served(w, call, q) && Served(w', call, q)
    requires step.Sequenced? && SeqOwner(w.t.s, step.x).Some? ==> SeqOwner(w.t.s, step.x).value !in Owners(q)
    ensures Routed(w', call, q)
  {
    match call
    case Opening(_, _, _, _, _, _, _) => OpeningRouted(w, w', call, q);
    case OnStateid(_, _, _, _, _) =>
      OwnersRoutes(w, step, w', q.who, q);
      StateidRouted(w, w', call, q);
    case FirstLock(_, _, _, _, _, _, _, _) =>
      OwnersRoutes(w, step, w', q.open, q);
      LockRouted(w, w', call, q);
  }

  lemma EnterRenews(sv: Server, call: Call)
    ensures var w' := EnterCall(sv, call).sv.w; w'.t.s == sv.w.t.s && w'.t.cl.confirmed == sv.w.t.cl.confirmed
  {
    var f := Found(sv.w, call);
    if f.Some? { RenewsOnly(sv.w, f.value); }
  }

  lemma StaysRouted(sv: Server, e: Event, sv': Server, call: Call, q: Request)
    requires Kept(sv.w) && Kept(sv'.w) && sv' == Handle(sv, e) && Settled(sv, q)
    requires Routed(sv.w, call, q) && Served(sv.w, call, q) && Served(sv'.w, call, q)
    ensures Routed(sv'.w, call, q)
  {
    if e.Does? {
      DoRouted(sv, e.step, sv', call, q);
    } else {
      SameTables(sv, e);
      SameRouted(sv.w, sv'.w, call, q);
    }
  }

  lemma SameTables(sv: Server, e: Event)
    requires !e.Does?
    ensures var w' := Handle(sv, e).w; w'.t.s == sv.w.t.s && w'.t.cl.confirmed == sv.w.t.cl.confirmed
  {
    if e.Enter? { EnterRenews(sv, e.call); }
  }

  lemma DoRouted(sv: Server, step: Step, sv': Server, call: Call, q: Request)
    requires Kept(sv.w) && Kept(sv'.w) && sv' == Do(sv, step) && Settled(sv, q)
    requires Routed(sv.w, call, q) && Served(sv.w, call, q) && Served(sv'.w, call, q)
    ensures Routed(sv'.w, call, q)
  {
    DoWorld(sv, step);
    if sv'.w != sv.w {
      OwnersIdle(sv, step, q);
      StepRouted(sv.w, step, sv'.w, call, q);
    }
  }

  /** A step that is done on a stateid is of a job, and so not of a settled request's owner. */
  lemma OwnersIdle(sv: Server, step: Step, q: Request)
    requires Settled(sv, q) && Do(sv, step).w != sv.w
    ensures step.Sequenced? && SeqOwner(sv.w.t.s, step.x).Some? ==> SeqOwner(sv.w.t.s, step.x).value !in Owners(q)
  {}

  // ---------- the theorem ----------

  lemma {:induction false} AllStay(sv: Server, events: seq<Event>, call: Call, q: Request)
    requires ServerOk(sv) && Settled(sv, q) && Routed(sv.w, call, q)
    requires AllQuiet(sv, q, events) && AllServed(sv, call, q, events)
    ensures Settled(HandleAll(sv, events), q) && Routed(HandleAll(sv, events).w, call, q)
    decreases |events|
  {
    if events != [] {
      HandleOk(sv, events[0]);
      StaysSettled(sv, events[0], q);
      StaysRouted(sv, events[0], Handle(sv, events[0]), call, q);
      AllStay(Handle(sv, events[0]), events[1..], call, q);
    }
  }

  /** The server has taken note of a request that is done. */
  lemma AcceptedStays(sv: Server, o: Name, body: seq<nat>, fh: Option<string>, between: seq<Event>,
                      call: Call, q: Request, sv1: Server)
    requires ServerOk(sv) && o in sv.busy && sv.busy[o].status.Some? && !NoAdvance(sv.busy[o].status.value)
    requires q == Answered(sv.busy[o], body, fh) && sv1 == LeaveCall(sv, o, body, fh)
    requires AllQuiet(sv1, q, between) && AllServed(sv1, call, q, between) && Routed(sv1.w, call, q)
    ensures Settled(HandleAll(sv1, between), q) && Routed(HandleAll(sv1, between).w, call, q)
  {
    AcceptedSettles(sv, o, body, fh);
    LeaveOk(sv, o, body, fh);
    AllStay(sv1, between, call, q);
  }

  lemma LeaveOk(sv: Server, o: Name, body: seq<nat>, fh: Option<string>)
    requires ServerOk(sv)
    ensures ServerOk(LeaveCall(sv, o, body, fh))
  {
    LeaveBusy(sv, o, body, fh);
  }

  /**
   A retransmitted OPEN, CLOSE, LOCK or other sequenced request never runs twice.  In
   any run of the server, once a request has been accepted, and for as long as its owners
   send nothing else and its client is served, every repeat of it finds its streams, is
   given the very same reply, starts no body, and leaves the tables and the OPENs in
   flight as they were.
   */
  lemma RetransmissionRunsNothing(lease: nat, wait: nat, before: seq<Event>, o: Name, body: seq<nat>,
                                  fh: Option<string>, between: seq<Event>, call: Call,
                                  sv: Server, q: Request, sv1: Server, sv': Server)
    requires sv == HandleAll(Boot(lease, wait), before) && o in sv.busy
    requires sv.busy[o].status.Some? && !NoAdvance(sv.busy[o].status.value)
    requires q == Answered(sv.busy[o], body, fh) && sv1 == LeaveCall(sv, o, body, fh) && Routed(sv1.w, call, q)
    requires AllQuiet(sv1, q, between) && AllServed(sv1, call, q, between) && sv' == HandleAll(sv1, between)
    ensures var a := EnterCall(sv', call);
            && a.reply == Some(q.outcome) && a.sv == sv'.(w := a.sv.w)
            && a.sv.w.t.s == sv'.w.t.s && a.sv.w.pending == sv'.w.pending && a.sv.w.recalls == sv'.w.recalls
  {
    EveryServerOk(lease, wait, before);
    AcceptedStays(sv, o, body, fh, between, call, q, sv1);
    RepeatAnswered(sv', call, q);
    RenewsOnly(sv'.w, q);
  }
}
