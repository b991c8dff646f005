/**
 What a crash leaves behind (facetcache/item.go, flushMeta with writeNoOverwrite and
 mirrorWrite).

 `written` are the byte positions the data file has been given, `durable` those an
 fdatasync has covered, and `persisted` those the metadata file on disk claims.  A
 flush takes a snapshot, syncs if it has to, and replaces the metadata; other steps
 may fall between any two of these, and each may fail.  A sync covers what was
 written before it began.
 */
module CacheCrash {
  datatype Phase = Snapped | Syncing(before: set<int>) | Synced

  datatype Flush = Flush(claims: set<int>, need: bool, phase: Phase) {
    /** The metadata may be written now. */
    predicate Ready() { !need || phase.Synced? }
  }

  datatype Durability = Durability(held: set<int>, dirty: bool, needSync: bool,
                                   written: set<int>, durable: set<int>,
                                   flushes: map<nat, Flush>, persisted: set<int>)

  datatype Step =
    | Fill(bytes: set<int>)
    | FillFailed(part: set<int>)
    | Mirror(bytes: set<int>)
    | MirrorFailed(bytes: set<int>, part: set<int>)
    | Touch
    | Begin(id: nat)
    | SyncStart(id: nat)
    | SyncDone(id: nat)
    | SyncFailed(id: nat)
    | Persist(id: nat)
    | PersistFailed(id: nat)

  predicate Enabled(d: Durability, s: Step) {
    match s
    case Begin(id) => d.dirty && id !in d.flushes
    case SyncStart(id) => id in d.flushes && d.flushes[id].need && d.flushes[id].phase.Snapped?
    case SyncDone(id) => id in d.flushes && d.flushes[id].phase.Syncing?
    case SyncFailed(id) => id in d.flushes && d.flushes[id].phase.Syncing?
    case Persist(id) => id in d.flushes && d.flushes[id].Ready()
    case PersistFailed(id) => id in d.flushes && d.flushes[id].Ready()
    case _ => true
  }

  function Failed(d: Durability, id: nat): Durability
    requires id in d.flushes
  {
    d.(flushes := d.flushes - {id}, dirty := true, needSync := d.needSync || d.flushes[id].need)
  }

  function Began(d: Durability, id: nat): Durability {
    d.(flushes := d.flushes[id := Flush(d.held, d.needSync, Snapped)], dirty := false, needSync := false)
  }

  function Apply(d: Durability, s: Step): Durability
    requires Enabled(d, s)
  {
    match s
    case Fill(bytes) =>
      if bytes <= d.held then d
      else d.(held := d.held + bytes, written := d.written + (bytes - d.held), dirty := true, needSync := true)
    case FillFailed(part) => d.(written := d.written + part)
    case Mirror(bytes) => d.(held := d.held + bytes, written := d.written + bytes, dirty := true, needSync := true)
    case MirrorFailed(bytes, part) => d.(held := d.held - bytes, written := d.written + part)
    case Touch => d.(dirty := true)
    case Begin(id) => Began(d, id)
    case SyncStart(id) => d.(flushes := d.flushes[id := d.flushes[id].(phase := Syncing(d.written))])
    case SyncDone(id) =>
      d.(durable := d.durable + d.flushes[id].phase.before, flushes := d.flushes[id := d.flushes[id].(phase := Synced)])
    case SyncFailed(id) => Failed(d, id)
    case Persist(id) => d.(persisted := d.flushes[id].claims, flushes := d.flushes - {id})
    case PersistFailed(id) => Failed(d, id)
  }

  /** What a flush under way may rely on. */
  ghost predicate FlushOk(f: Flush, written: set<int>, durable: set<int>) {
    && f.claims <= written
    && (f.phase.Syncing? ==> f.need && f.claims <= f.phase.before <= written)
    && (f.Ready() ==> f.claims <= durable)
  }

  /** Metadata on disk, now or after any flush under way, claims only synced bytes. */
  ghost predicate Honest(d: Durability) {
    && d.persisted <= d.durable <= d.written
    && d.held <= d.written
    && forall id | id in d.flushes :: FlushOk(d.flushes[id], d.written, d.durable)
  }

  /** Bytes held but not known synced are on the account of `needSync` or of a flush that has yet to sync. */
  ghost predicate Accounted(d: Durability) {
    d.needSync || d.held <= d.durable
    || exists id :: id in d.flushes && !d.flushes[id].Ready() && d.held <= d.durable + d.flushes[id].claims
  }

  /** A snapshot is taken only while no other flush has yet to sync. */
  predicate OneAtATime(d: Durability, s: Step) { s.Begin? ==> AllReady(d.flushes) }

  lemma BeginHonestIff(d: Durability, id: nat)
    requires Honest(d) && Enabled(d, Begin(id))
    ensures Honest(Began(d, id)) <==> d.needSync || d.held <= d.durable
  {
    var d' := Began(d, id);
    assert d'.flushes[id] == Flush(d.held, d.needSync, Snapped);
    if d.needSync || d.held <= d.durable {
      forall k | k in d'.flushes ensures FlushOk(d'.flushes[k], d'.written, d'.durable) {
        if k != id { assert FlushOk(d.flushes[k], d.written, d.durable); }
      }
    }
  }

  /** The same flags, and the same flushes in the same phases: all that the code can see. */
  ghost predicate Alike(d: Durability, e: Durability) {
    && e.dirty == d.dirty && e.needSync == d.needSync && e.flushes.Keys == d.flushes.Keys
    && forall id | id in d.flushes :: SamePhase(d.flushes[id], e.flushes[id])
  }

  predicate SamePhase(f: Flush, g: Flush) {
    g.need == f.need && (g.phase.Snapped? <==> f.phase.Snapped?) && (g.phase.Syncing? <==> f.phase.Syncing?)
  }

  /** No other flush stands between its snapshot and the end of its sync. */
  predicate AllReady(flushes: map<nat, Flush>) { forall id | id in flushes :: flushes[id].Ready() }

  /**
   A snapshot is safe exactly when the sync flag is up or no flush has yet to sync.  Safe
   means: whatever is on disk, as far as flags and flushes allow, metadata stays honest.
   */
  lemma BeginSafeIff(d: Durability, id: nat)
    requires Honest(d) && Accounted(d) && Enabled(d, Begin(id))
    ensures (forall e | Alike(d, e) && Honest(e) && Accounted(e) :: Honest(Began(e, id)))
       <==> d.needSync || AllReady(d.flushes)
  {
    if d.needSync || AllReady(d.flushes) {
      forall e | Alike(d, e) && Honest(e) && Accounted(e) ensures Honest(Began(e, id)) {
        assert AllReady(d.flushes) ==> AllReady(e.flushes);
        BeginHonestIff(e, id);
      }
    } else {
      var k :| k in d.flushes && !d.flushes[k].Ready();
      var e := Unsynced(d);
      assert FlushOk(d.flushes[k], d.written, d.durable);
      UnsyncedOk(d, k);
      BeginHonestIff(e, id);
    }
  }

  /** A disk on which one byte is written, held, and claimed by every flush that has yet to sync it. */
  ghost function Unsynced(d: Durability): Durability {
    d.(held := {0}, written := {0}, durable := {}, persisted := {},
       flushes := map id | id in d.flushes :: UnsyncedFlush(d.flushes[id]))
  }

  ghost function UnsyncedFlush(f: Flush): Flush {
    Flush(if f.Ready() then {} else {0}, f.need, if f.phase.Syncing? then Syncing({0}) else f.phase)
  }

  lemma UnsyncedOk(d: Durability, k: nat)
    requires Honest(d) && k in d.flushes && !d.flushes[k].Ready()
    ensures Alike(d, Unsynced(d)) && Honest(Unsynced(d)) && Accounted(Unsynced(d))
  {
    var e := Unsynced(d);
    forall id | id in e.flushes ensures FlushOk(e.flushes[id], e.written, e.durable) {
      assert FlushOk(d.flushes[id], d.written, d.durable);
    }
    assert k in e.flushes && !e.flushes[k].Ready() && e.held <= e.durable + e.flushes[k].claims;
  }

  lemma StepHonest(d: Durability, s: Step)
    requires Honest(d) && Accounted(d) && Enabled(d, s) && OneAtATime(d, s)
    ensures Honest(Apply(d, s))
  {
    var d' := Apply(d, s);
    if s.Begin? {
      BeginHonestIff(d, s.id);
    } else {
      forall k | k in d'.flushes ensures FlushOk(d'.flushes[k], d'.written, d'.durable) {
        assert k in d.flushes && FlushOk(d.flushes[k], d.written, d.durable);
      }
      if s.Persist? { assert FlushOk(d.flushes[s.id], d.written, d.durable); }
      if s.SyncDone? { assert FlushOk(d.flushes[s.id], d.written, d.durable); }
    }
  }

  lemma StepAccounted(d: Durability, s: Step)
    requires Honest(d) && Accounted(d) && Enabled(d, s) && OneAtATime(d, s)
    ensures Accounted(Apply(d, s))
  {
    var d' := Apply(d, s);
    if d.needSync || d.held <= d.durable {
      if s.Begin? { assert s.id in d'.flushes && d'.flushes[s.id].claims == d.held; }
    } else if !d'.needSync {
      var id :| id in d.flushes && !d.flushes[id].Ready() && d.held <= d.durable + d.flushes[id].claims;
      assert FlushOk(d.flushes[id], d.written, d.durable);
      match s {
        case SyncDone(k) => if k == id { assert d'.held <= d'.durable; }
        case _ =>
      }
      if id in d'.flushes && !d'.flushes[id].Ready() { assert d'.held <= d'.durable + d'.flushes[id].claims; }
    }
  }

  function After(d: Durability, run: seq<Step>): Durability
    requires Legal(d, run)
    decreases |run|
  {
    if run == [] then d else After(Apply(d, run[0]), run[1..])
  }

  predicate Legal(d: Durability, run: seq<Step>)
    decreases |run|
  {
    run == [] || (Enabled(d, run[0]) && Legal(Apply(d, run[0]), run[1..]))
  }

  predicate RunOneAtATime(d: Durability, run: seq<Step>)
    requires Legal(d, run)
    decreases |run|
  {
    run == [] || (OneAtATime(d, run[0]) && RunOneAtATime(Apply(d, run[0]), run[1..]))
  }

  /** An item just loaded: its ranges came from metadata that was itself honest. */
  ghost predicate Loaded(d: Durability) {
    d.flushes == map[] && !d.needSync && d.held <= d.durable && d.persisted <= d.durable <= d.written
  }

  /** Stop at any step of any run: the metadata on disk claims only bytes the disk holds. */
  lemma {:induction false} CrashLeavesHonestMetadata(d: Durability, run: seq<Step>)
    requires Loaded(d) && Legal(d, run) && RunOneAtATime(d, run)
    ensures After(d, run).persisted <= After(d, run).durable
  {
    RunHonest(d, run);
  }

  lemma {:induction false} RunHonest(d: Durability, run: seq<Step>)
    requires Honest(d) && Accounted(d) && Legal(d, run) && RunOneAtATime(d, run)
    ensures Honest(After(d, run)) && Accounted(After(d, run))
    decreases |run|
  {
    if run != [] {
      StepHonest(d, run[0]);
      StepAccounted(d, run[0]);
      RunHonest(Apply(d, run[0]), run[1..]);
    }
  }

  /** A snapshot with the flag down and something unsynced leads at once to metadata that claims it. */
  lemma UnsafeBeginPersists(d: Durability, id: nat)
    requires Enabled(d, Begin(id)) && !d.needSync && !(d.held <= d.durable)
    ensures Legal(d, [Begin(id), Persist(id)])
    ensures var d' := After(d, [Begin(id), Persist(id)]); !(d'.persisted <= d'.durable)
  {
    assert [Begin(id), Persist(id)][1..] == [Persist(id)];
    assert [Persist(id)][1..] == [];
    var d1 := Apply(d, Begin(id));
    assert d1.flushes[id] == Flush(d.held, false, Snapped);
    assert After(d1, [Persist(id)]) == Apply(d1, Persist(id));
  }

  /** Two flushes at once reach such a snapshot from an empty cache. */
  lemma OverlappingFlushesLie()
    ensures var d := Durability({}, false, false, {}, {}, map[], {});
            var run := [Mirror({0}), Begin(0), Touch, Begin(1), Persist(1)];
            Legal(d, run) && !(After(d, run).persisted <= After(d, run).durable)
  {
    var d := Durability({}, false, false, {}, {}, map[], {});
    var d1 := Apply(d, Mirror({0}));
    var d2 := Apply(d1, Begin(0));
    var d3 := Apply(d2, Touch);
    UnsafeBeginPersists(d3, 1);
    var run := [Mirror({0}), Begin(0), Touch, Begin(1), Persist(1)];
    assert run[1..] == [Begin(0), Touch, Begin(1), Persist(1)];
    assert run[1..][1..] == [Touch, Begin(1), Persist(1)];
    assert run[1..][1..][1..] == [Begin(1), Persist(1)];
  }
}
