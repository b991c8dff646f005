/**
 Crashes and restarts with contents (facetcache/item.go, flushMeta and ensureLoaded;
 facetcache/janitor.go, punchItem).

 `CacheCrash` asks whether the bytes that metadata claims were ever synced.  Here the
 question is what a restart reads there.  `clean` are the bytes of the data file whose
 present value is on stable storage; of any other byte a crash may leave anything, and
 of the metadata files ever put in place it may leave any one.  `version` stands for the
 backend's fingerprint, which every change of the object moves on.
 */
module CacheRecovery {
  import opened RangeSet
  import opened CacheContent
  import Crash = CacheCrash
  import ContentCache

  type Flush = Crash.Flush

  datatype Meta = Meta(version: nat, claims: set<int>)

  datatype Machine = Machine(
    backend: seq<Byte>, version: nat,
    file: seq<Byte>, clean: set<int>, metas: set<Meta>,
    loadedAt: nat, held: set<int>, dirty: bool, needSync: bool, flushes: map<nat, Flush>)
  {
    /** The object is still the one the item was loaded from. */
    predicate Current() { version == loadedAt }

    function View(): Content { Content(backend, file, held, |file|) }
  }

  datatype Step =
    | Fill(bytes: set<int>)
    | FillFailed(part: set<int>)
    | Change
    | Punch(hole: set<int>)
    | Touch
    | Begin(id: nat)
    | SyncStart(id: nat)
    | SyncDone(id: nat)
    | SyncFailed(id: nat)
    | Persist(id: nat)
    | PersistFailed(id: nat)
    | Restart(disk: seq<Byte>, meta: Meta)

  function Positions(file: seq<Byte>): set<int> { Span(Rng(0, |file|)) }

  /** Writing over bytes takes back what a sync under way would have covered. */
  function Unsettled(flushes: map<nat, Flush>, bytes: set<int>): map<nat, Flush> {
    map id | id in flushes ::
      if flushes[id].phase.Syncing?
      then flushes[id].(phase := Crash.Syncing(flushes[id].phase.before - bytes)) else flushes[id]
  }

  /** The same file outside `bytes`. */
  ghost predicate SameOutside(file: seq<Byte>, file': seq<Byte>, bytes: set<int>) {
    |file'| == |file| && forall b | b !in bytes :: At(file', b) == At(file, b)
  }

  /** Everything after a write of `bytes` that put `file` in place. */
  function Overwritten(w: Machine, bytes: set<int>, file: seq<Byte>): Machine {
    w.(file := file, clean := w.clean - bytes, flushes := Unsettled(w.flushes, bytes))
  }

  /** What the crash may leave of the data file. */
  ghost predicate CrashImage(w: Machine, disk: seq<Byte>) {
    forall b | b in w.clean :: At(disk, b) == At(w.file, b)
  }

  /** Any metadata ever put in place, or none that can be read. */
  ghost predicate Left(w: Machine, meta: Meta) { meta in w.metas || meta.claims == {} }

  /** ensureLoaded over what the crash left. */
  function Restarted(w: Machine, disk: seq<Byte>, meta: Meta): Machine {
    var file := Resized(disk, |w.backend|);
    w.(file := file, clean := Positions(file), metas := w.metas * {meta}, loadedAt := w.version,
       held := if meta.version == w.version then meta.claims * Positions(file) else {},
       dirty := meta.version != w.version, needSync := false, flushes := map[])
  }

  function Failed(w: Machine, id: nat): Machine
    requires id in w.flushes
  {
    w.(flushes := w.flushes - {id}, dirty := true, needSync := w.needSync || w.flushes[id].need)
  }

  ghost predicate Next(w: Machine, step: Step, w': Machine) {
    match step
    case Fill(bytes) =>
      var added := bytes - w.held;
      && bytes <= Positions(w.file) && SameOutside(w.file, w'.file, added)
      && (w.Current() ==> forall b | b in added :: At(w'.file, b) == At(w.backend, b))
      && w' == if added == {} then w
               else Overwritten(w, added, w'.file).(held := w.held + bytes, dirty := true, needSync := true)
    case FillFailed(part) =>
      part !! w.held && SameOutside(w.file, w'.file, part) && w' == Overwritten(w, part, w'.file)
    case Change => w'.version > w.version && w'.loadedAt == w.loadedAt && w'.metas == w.metas
    case Punch(hole) =>
      && hole <= w.held && SameOutside(w.file, w'.file, hole) && (forall b | b in hole :: At(w'.file, b) == 0)
      && (w.dirty ==> w'.dirty) && w' == Overwritten(w, hole, w'.file).(held := w.held - hole, dirty := w'.dirty)
    case Touch => w' == w.(dirty := true)
    case Begin(id) =>
      && w.dirty && id !in w.flushes
      && w' == w.(flushes := w.flushes[id := Crash.Flush(w.held, w.needSync, Crash.Snapped)],
                  dirty := false, needSync := false)
    case SyncStart(id) =>
      && id in w.flushes && w.flushes[id].need && w.flushes[id].phase.Snapped?
      && w' == w.(flushes := w.flushes[id := w.flushes[id].(phase := Crash.Syncing(Positions(w.file)))])
    case SyncDone(id) =>
      && id in w.flushes && w.flushes[id].phase.Syncing?
      && w' == w.(clean := w.clean + w.flushes[id].phase.before,
                  flushes := w.flushes[id := w.flushes[id].(phase := Crash.Synced)])
    case SyncFailed(id) => id in w.flushes && w.flushes[id].phase.Syncing? && w' == Failed(w, id)
    case Persist(id) =>
      && id in w.flushes && w.flushes[id].Ready()
      && w' == w.(metas := w.metas + {Meta(w.loadedAt, w.flushes[id].claims)}, flushes := w.flushes - {id})
    case PersistFailed(id) => id in w.flushes && w.flushes[id].Ready() && w' == Failed(w, id)
    case Restart(disk, meta) => CrashImage(w, disk) && Left(w, meta) && w' == Restarted(w, disk, meta)
  }

  // ---------- what every step keeps ----------

  /** Metadata that a restart would believe claims only bytes that will be there, with the backend's value. */
  ghost predicate MetaOk(m: Meta, w: Machine) { m.version == w.version ==> m.claims <= w.held * w.clean }

  ghost predicate FlushFine(f: Flush, w: Machine) {
    && f.claims <= w.held
    && (f.phase.Syncing? ==> f.need && f.claims <= f.phase.before)
    && (f.Ready() ==> f.claims <= w.clean)
  }

  ghost predicate SyncOwed(w: Machine) {
    w.needSync || w.held <= w.clean
    || exists id :: id in w.flushes && !w.flushes[id].Ready() && w.held <= w.clean + w.flushes[id].claims
  }

  /** Of an item whose object has not changed since it was loaded. */
  ghost predicate CurrentOk(w: Machine) {
    && |w.file| == |w.backend| && w.held <= Positions(w.file)
    && (forall b | b in w.held :: At(w.file, b) == At(w.backend, b))
    && (forall m | m in w.metas :: MetaOk(m, w))
    && (forall id | id in w.flushes :: FlushFine(w.flushes[id], w))
    && SyncOwed(w)
  }

  ghost predicate Good(w: Machine) {
    && w.loadedAt <= w.version && (forall m | m in w.metas :: m.version <= w.loadedAt)
    && (w.Current() ==> CurrentOk(w))
  }

  /** One flush at a time, and no punch of a byte that metadata in place, or on its way, still claims. */
  ghost predicate Careful(w: Machine, step: Step) {
    match step
    case Begin(_) => Crash.AllReady(w.flushes)
    case Punch(hole) => w.Current() ==> Unclaimed(w, hole)
    case _ => true
  }

  ghost predicate Unclaimed(w: Machine, hole: set<int>) {
    && (forall m | m in w.metas && m.version == w.version :: m.claims !! hole)
    && (forall id | id in w.flushes :: w.flushes[id].claims !! hole)
  }

  lemma UnsettledFine(w: Machine, bytes: set<int>, w': Machine, id: nat)
    requires id in w.flushes && FlushFine(w.flushes[id], w) && w.flushes[id].claims !! bytes
    requires w'.flushes == Unsettled(w.flushes, bytes) && w'.clean == w.clean - bytes && w.flushes[id].claims <= w'.held
    ensures id in w'.flushes && FlushFine(w'.flushes[id], w')
    ensures w'.flushes[id].Ready() == w.flushes[id].Ready() && w'.flushes[id].claims == w.flushes[id].claims
  {}

  lemma FillGood(w: Machine, bytes: set<int>, w': Machine)
    requires Good(w) && Next(w, Step.Fill(bytes), w') && w.Current()
    ensures Good(w')
  {
    forall id | id in w'.flushes ensures FlushFine(w'.flushes[id], w') {
      assert FlushFine(w.flushes[id], w);
      if bytes - w.held != {} { UnsettledFine(w, bytes - w.held, w', id); }
    }
    forall m | m in w'.metas ensures MetaOk(m, w') { assert MetaOk(m, w); }
  }

  /** A failed fill or a punch of bytes that nothing claims. */
  lemma OverwriteGood(w: Machine, bytes: set<int>, w': Machine)
    requires Good(w) && w.Current() && Unclaimed(w, bytes) && SameOutside(w.file, w'.file, bytes)
    requires w' == Overwritten(w, bytes, w'.file).(held := w.held - bytes, dirty := w'.dirty)
    ensures Good(w')
  {
    forall id | id in w'.flushes ensures FlushFine(w'.flushes[id], w') { UnsettledFine(w, bytes, w', id); }
    forall m | m in w'.metas ensures MetaOk(m, w') { assert MetaOk(m, w); }
    if !w.needSync && !(w.held <= w.clean) {
      var id :| id in w.flushes && !w.flushes[id].Ready() && w.held <= w.clean + w.flushes[id].claims;
      UnsettledFine(w, bytes, w', id);
      assert id in w'.flushes && !w'.flushes[id].Ready() && w'.held <= w'.clean + w'.flushes[id].claims;
    }
  }

  lemma HeldOnly(w: Machine, part: set<int>)
    requires Good(w) && w.Current() && part !! w.held
    ensures Unclaimed(w, part) && w.held - part == w.held
  {
    forall m | m in w.metas && m.version == w.version ensures m.claims !! part { assert MetaOk(m, w); }
    forall id | id in w.flushes ensures w.flushes[id].claims !! part { assert FlushFine(w.flushes[id], w); }
  }

  lemma BeginGood(w: Machine, id: nat, w': Machine)
    requires Good(w) && Next(w, Begin(id), w') && Crash.AllReady(w.flushes) && w.Current()
    ensures Good(w')
  {
    assert w'.flushes[id] == Crash.Flush(w.held, w.needSync, Crash.Snapped);
    forall k | k in w'.flushes ensures FlushFine(w'.flushes[k], w') {
      if k != id { assert FlushFine(w.flushes[k], w); }
    }
    forall m | m in w'.metas ensures MetaOk(m, w') { assert MetaOk(m, w); }
    if w.needSync { assert id in w'.flushes && !w'.flushes[id].Ready(); }
  }

  lemma FlushGood(w: Machine, step: Step, w': Machine)
    requires Good(w) && Next(w, step, w') && w.Current()
    requires step.SyncStart? || step.SyncDone? || step.SyncFailed? || step.Persist? || step.PersistFailed?
    ensures Good(w')
  {
    assert FlushFine(w.flushes[step.id], w);
    forall k | k in w'.flushes ensures FlushFine(w'.flushes[k], w') { assert FlushFine(w.flushes[k], w); }
    forall m | m in w'.metas ensures MetaOk(m, w') { if m in w.metas { assert MetaOk(m, w); } }
    FlushOwed(w, step, w');
  }

  lemma FlushOwed(w: Machine, step: Step, w': Machine)
    requires SyncOwed(w) && Next(w, step, w') && (forall id | id in w.flushes :: FlushFine(w.flushes[id], w))
    requires step.SyncStart? || step.SyncDone? || step.SyncFailed? || step.Persist? || step.PersistFailed?
    ensures SyncOwed(w')
  {
    if !w'.needSync && !w.needSync && !(w.held <= w.clean) {
      var id :| id in w.flushes && !w.flushes[id].Ready() && w.held <= w.clean + w.flushes[id].claims;
      assert FlushFine(w.flushes[id], w);
      if step == SyncDone(id) { assert w'.held <= w'.clean; }
      if id in w'.flushes && !w'.flushes[id].Ready() { assert w'.held <= w'.clean + w'.flushes[id].claims; }
    }
  }

  lemma InPositions(file: seq<Byte>, b: int)
    ensures b in Positions(file) <==> 0 <= b < |file|
  {
    assert b in Positions(file) <==> Rng(0, |file|).Holds(b);
  }

  lemma RestartGood(w: Machine, disk: seq<Byte>, meta: Meta, w': Machine)
    requires Good(w) && Next(w, Restart(disk, meta), w')
    ensures Good(w')
  {
    if meta.version == w.version && meta.claims != {} {
      assert MetaOk(meta, w);
      forall b | b in meta.claims ensures b in w'.held && At(w'.file, b) == At(w'.backend, b) {
        InPositions(w.file, b);
        InPositions(w'.file, b);
      }
    }
  }

  lemma StepGood(w: Machine, step: Step, w': Machine)
    requires Good(w) && Next(w, step, w') && Careful(w, step)
    ensures Good(w')
  {
    if step.Restart? {
      RestartGood(w, step.disk, step.meta, w');
    } else if w.Current() {
      match step {
        case Fill(bytes) => FillGood(w, bytes, w');
        case FillFailed(part) =>
          HeldOnly(w, part);
          OverwriteGood(w, part, w');
        case Change =>
        case Punch(hole) => OverwriteGood(w, hole, w');
        case Touch =>
          forall id | id in w.flushes ensures FlushFine(w'.flushes[id], w') { assert FlushFine(w.flushes[id], w); }
          forall m | m in w.metas ensures MetaOk(m, w') { assert MetaOk(m, w); }
        case Begin(id) => BeginGood(w, id, w');
        case _ => FlushGood(w, step, w');
      }
    }
  }

  // ---------- every run ----------

  /** A run, as the states it passes through. */
  ghost predicate Run(run: seq<Machine>, steps: seq<Step>) {
    |run| == |steps| + 1 && forall i | 0 <= i < |steps| :: Next(run[i], steps[i], run[i + 1])
  }

  ghost predicate RunCareful(run: seq<Machine>, steps: seq<Step>)
    requires |run| == |steps| + 1
  {
    forall i | 0 <= i < |steps| :: Careful(run[i], steps[i])
  }

  /** The object before anything of it was cached. */
  function Fresh(backend: seq<Byte>): Machine {
    Machine(backend, 0, seq(|backend|, i => 0), {}, {}, 0, {}, true, false, map[])
  }

  lemma {:induction false} RunGood(run: seq<Machine>, steps: seq<Step>, n: nat)
    requires Run(run, steps) && RunCareful(run, steps) && n < |run| && Good(run[0])
    ensures Good(run[n])
  {
    if n > 0 {
      RunGood(run, steps, n - 1);
      StepGood(run[n - 1], steps[n - 1], run[n]);
    }
  }

  /**
   Over any run, with any number of crashes in it and whatever they leave of unsynced
   bytes, an item has the backend's bytes wherever it holds any, for as long as the
   object is the one it was loaded from.
   */
  lemma EveryRestartCoherent(backend: seq<Byte>, run: seq<Machine>, steps: seq<Step>, n: nat)
    requires Run(run, steps) && RunCareful(run, steps) && n < |run| && run[0] == Fresh(backend)
    ensures run[n].Current() ==> Coherent(run[n].View())
  {
    RunGood(run, steps, n);
    var w := run[n];
    if w.Current() {
      forall b | b in w.held ensures 0 <= b < |w.file| { InPositions(w.file, b); }
    }
  }

  /** What a crash leaves is metadata and a data file over which a load is coherent (`ContentCache.LoadCoherent`). */
  lemma CrashLeavesHonest(w: Machine, disk: seq<Byte>, left: Meta, st: ContentCache.Stat, meta: ContentCache.Metadata)
    requires Good(w) && CrashImage(w, disk) && left in w.metas && st.size == |w.backend| <= ContentCache.FAR
    requires meta.Metadata? && Bytes(meta.ranges) == left.claims
    requires ContentCache.Matches(st, meta) <==> left.version == w.version
    ensures ContentCache.HonestMetadata(disk, w.backend, st, meta)
  {
    if left.version == w.version {
      assert MetaOk(left, w);
      forall b | b in left.claims ensures b < |w.backend| && At(disk, b) == At(w.backend, b) { InPositions(w.file, b); }
    }
  }

  // ---------- punches ----------

  ghost predicate HoldsBackend(w: Machine) { forall b | b in w.held :: At(w.file, b) == At(w.backend, b) }

  /** Whatever a crash leaves now, the restart holds the backend's bytes. */
  ghost predicate Recoverable(w: Machine) {
    forall disk, meta | CrashImage(w, disk) && Left(w, meta) :: HoldsBackend(Restarted(w, disk, meta))
  }

  lemma GoodRecovers(w: Machine)
    requires Good(w)
    ensures Recoverable(w)
  {
    forall disk, meta | CrashImage(w, disk) && Left(w, meta) ensures HoldsBackend(Restarted(w, disk, meta)) {
      RestartGood(w, disk, meta, Restarted(w, disk, meta));
    }
  }

  /** The same item in memory: all that the janitor can see. */
  ghost predicate Alike(w: Machine, v: Machine) {
    v == w.(backend := v.backend, file := v.file, clean := v.clean, metas := v.metas)
  }

  function Blanked(file: seq<Byte>, hole: set<int>): (r: seq<Byte>)
    ensures SameOutside(file, r, hole) && forall b | b in hole :: At(r, b) == 0
  {
    seq(|file|, i requires 0 <= i < |file| => if i in hole then 0 else file[i])
  }

  function Punched(w: Machine, hole: set<int>): Machine {
    Overwritten(w, hole, Blanked(w.file, hole)).(held := w.held - hole, dirty := true)
  }

  /** The same item over a file of ones, all synced. */
  function Ones(w: Machine): Machine {
    var ones: seq<Byte> := seq(|w.file|, i => 1);
    w.(backend := ones, file := ones, clean := Positions(ones))
  }

  lemma OnesGood(w: Machine)
    requires Good(w) && w.Current()
    ensures Good(Ones(w)) && Good(Ones(w).(metas := {Meta(w.version, w.held)}))
  {
    var v := Ones(w);
    forall b | b in v.held ensures At(v.file, b) == At(v.backend, b) {}
    forall id | id in v.flushes ensures FlushFine(v.flushes[id], v) { assert FlushFine(w.flushes[id], w); }
    forall m | m in v.metas ensures MetaOk(m, v) { assert MetaOk(m, w); }
    var u := v.(metas := {Meta(w.version, w.held)});
    forall id | id in u.flushes ensures FlushFine(u.flushes[id], u) { assert FlushFine(w.flushes[id], w); }
  }

  /** Metadata in place claims a byte that is not the backend's. */
  ghost predicate Lies(w: Machine, m: Meta, b: int) {
    m in w.metas && m.version == w.version && b in m.claims && 0 <= b < |w.backend| && At(w.file, b) != At(w.backend, b)
  }

  lemma LiesUnrecoverable(w: Machine, m: Meta, b: int)
    requires Lies(w, m, b)
    ensures !Recoverable(w)
  {
    assert CrashImage(w, w.file) && Left(w, m);
    var r := Restarted(w, w.file, m);
    InPositions(r.file, b);
    assert b in r.held && At(r.file, b) != At(r.backend, b);
  }

  lemma PunchedOnes(w: Machine, v: Machine, hole: set<int>, b: int)
    requires Good(w) && w.Current() && hole <= w.held && b in hole && v == Ones(w).(metas := v.metas)
    ensures Next(v, Step.Punch(hole), Punched(v, hole))
    ensures var p := Punched(v, hole); 0 <= b < |p.backend| && At(p.file, b) != At(p.backend, b)
  {
    InPositions(w.file, b);
  }

  /**
   A punch zeroes bytes that metadata already in place may claim, and only marks the item
   for a later flush.  From what the janitor can see, which is not the metadata in place,
   it is safe against a crash exactly when it punches nothing.
   */
  lemma PunchSafeIff(w: Machine, hole: set<int>)
    requires Good(w) && w.Current() && hole <= w.held
    ensures (forall v, v' | Alike(w, v) && Good(v) && Next(v, Step.Punch(hole), v') :: Recoverable(v')) <==> hole == {}
  {
    if hole == {} {
      forall v, v' | Alike(w, v) && Good(v) && Next(v, Step.Punch(hole), v') ensures Recoverable(v') {
        OverwriteGood(v, hole, v');
        GoodRecovers(v');
      }
    } else {
      var b :| b in hole;
      var m := Meta(w.version, w.held);
      var v := Ones(w).(metas := {m});
      OnesGood(w);
      PunchedOnes(w, v, hole, b);
      LiesUnrecoverable(Punched(v, hole), m, b);
    }
  }

  /** The same item, metadata and flushes, over another object and disk. */
  ghost predicate SameClaims(w: Machine, v: Machine) {
    v == w.(backend := v.backend, file := v.file, clean := v.clean)
  }

  predicate Finishing(step: Step) { step.SyncStart? || step.SyncDone? || step.Persist? }

  /** A punch, and then flushes that were under way get on. */
  ghost predicate PunchRun(run: seq<Machine>, hole: set<int>, steps: seq<Step>) {
    Run(run, [Step.Punch(hole)] + steps) && forall i | 0 <= i < |steps| :: Finishing(steps[i])
  }

  lemma UnclaimedRecovers(w: Machine, hole: set<int>, run: seq<Machine>, steps: seq<Step>)
    requires Good(w) && w.Current() && Unclaimed(w, hole) && PunchRun(run, hole, steps)
    requires SameClaims(w, run[0]) && Good(run[0])
    ensures Recoverable(run[|steps| + 1])
  {
    var all := [Step.Punch(hole)] + steps;
    forall i | 0 <= i < |all| ensures Careful(run[i], all[i]) {
      if i > 0 { assert all[i] == steps[i - 1]; } else { assert Unclaimed(run[0], hole); }
    }
    RunGood(run, all, |steps| + 1);
    GoodRecovers(run[|steps| + 1]);
  }

  /** A flush under way can get as far as its metadata. */
  lemma FinishFlush(w: Machine, id: nat) returns (more: seq<Machine>, steps: seq<Step>, w': Machine)
    requires id in w.flushes
    ensures Run([w] + more, steps) && (forall i | 0 <= i < |steps| :: Finishing(steps[i])) && |steps| > 0
    ensures ([w] + more)[|steps|] == w' && w' == w.(clean := w'.clean, metas := w'.metas, flushes := w'.flushes)
    ensures w'.metas == w.metas + {Meta(w.loadedAt, w.flushes[id].claims)}
  {
    var f := w.flushes[id];
    if f.Ready() {
      w' := w.(metas := w.metas + {Meta(w.loadedAt, f.claims)}, flushes := w.flushes - {id});
      more, steps := [w'], [Persist(id)];
    } else if f.phase.Syncing? {
      more, steps, w' := FinishSync(w, id);
    } else {
      var w1 := w.(flushes := w.flushes[id := f.(phase := Crash.Syncing(Positions(w.file)))]);
      assert Next(w, SyncStart(id), w1);
      var tail, rest;
      tail, rest, w' := FinishSync(w1, id);
      more, steps := [w1] + tail, [SyncStart(id)] + rest;
      assert [w] + more == [w] + ([w1] + tail);
    }
  }

  lemma FinishSync(w: Machine, id: nat) returns (more: seq<Machine>, steps: seq<Step>, w': Machine)
    requires id in w.flushes && w.flushes[id].phase.Syncing?
    ensures Run([w] + more, steps) && |steps| == 2 && (forall i | 0 <= i < |steps| :: Finishing(steps[i]))
    ensures ([w] + more)[2] == w' && w' == w.(clean := w'.clean, metas := w'.metas, flushes := w'.flushes)
    ensures w'.metas == w.metas + {Meta(w.loadedAt, w.flushes[id].claims)}
  {
    var f := w.flushes[id];
    var w1 := w.(clean := w.clean + f.phase.before, flushes := w.flushes[id := f.(phase := Crash.Synced)]);
    w' := w1.(metas := w1.metas + {Meta(w.loadedAt, f.claims)}, flushes := w1.flushes - {id});
    more, steps := [w1, w'], [SyncDone(id), Persist(id)];
    assert Next(w, SyncDone(id), w1) && Next(w1, Persist(id), w');
  }

  lemma ClaimedLies(w: Machine, hole: set<int>) returns (run: seq<Machine>, steps: seq<Step>)
    requires Good(w) && w.Current() && hole <= w.held && !Unclaimed(w, hole)
    ensures PunchRun(run, hole, steps) && SameClaims(w, run[0]) && Good(run[0])
    ensures !Recoverable(run[|steps| + 1])
  {
    var v := Ones(w);
    OnesGood(w);
    var p := Punched(v, hole);
    if m :| m in w.metas && m.version == w.version && !(m.claims !! hole) {
      var b :| b in m.claims && b in hole;
      PunchedOnes(w, v, hole, b);
      LiesUnrecoverable(p, m, b);
      run, steps := [v, p], [];
    } else {
      var id :| id in w.flushes && !(w.flushes[id].claims !! hole);
      run, steps := FlushedLies(w, v, hole, id);
    }
  }

  /** The claim is not in a metadata file yet, so its flush has to finish first. */
  lemma FlushedLies(w: Machine, v: Machine, hole: set<int>, id: int) returns (run: seq<Machine>, steps: seq<Step>)
    requires Good(w) && w.Current() && hole <= w.held && v == Ones(w) && Good(v)
    requires id in w.flushes && !(w.flushes[id].claims !! hole)
    ensures PunchRun(run, hole, steps) && run[0] == v && !Recoverable(run[|steps| + 1])
  {
    var p := Punched(v, hole);
    var b :| b in w.flushes[id].claims && b in hole;
    PunchedOnes(w, v, hole, b);
    var more, w';
    more, steps, w' := FinishFlush(p, id);
    LiesUnrecoverable(w', Meta(w.version, w.flushes[id].claims), b);
    run := [v] + ([p] + more);
    JoinRun(v, Step.Punch(hole), [p] + more, steps);
  }

  lemma JoinRun(v: Machine, step: Step, run: seq<Machine>, steps: seq<Step>)
    requires Run(run, steps) && Next(v, step, run[0])
    ensures Run([v] + run, [step] + steps)
  {
    var all, ss := [v] + run, [step] + steps;
    forall i | 0 <= i < |ss| ensures Next(all[i], ss[i], all[i + 1]) {
      if i > 0 { assert all[i] == run[i - 1] && ss[i] == steps[i - 1] && all[i + 1] == run[i]; }
    }
  }

  /**
   With the metadata in place and the flushes under way given, a punch and whatever those
   flushes do next is safe against a crash exactly when none of them claims a punched byte.
   */
  lemma PunchUnclaimedIff(w: Machine, hole: set<int>)
    requires Good(w) && w.Current() && hole <= w.held
    ensures Unclaimed(w, hole) <==>
      forall run, steps | PunchRun(run, hole, steps) && SameClaims(w, run[0]) && Good(run[0]) ::
        Recoverable(run[|steps| + 1])
  {
    if Unclaimed(w, hole) {
      forall run, steps | PunchRun(run, hole, steps) && SameClaims(w, run[0]) && Good(run[0])
        ensures Recoverable(run[|steps| + 1])
      {
        UnclaimedRecovers(w, hole, run, steps);
      }
    } else {
      var run, steps := ClaimedLies(w, hole);
    }
  }

  const SAVED: Meta := Meta(0, {0})

  /** One byte filled, synced and saved. */
  lemma SaveOne() returns (run: seq<Machine>, steps: seq<Step>, w: Machine)
    ensures Run(run, steps) && run[0] == Fresh([1]) && RunCareful(run, steps) && run[|steps|] == w
    ensures w.Current() && w.backend == [1] && w.file == [1] && w.held == {0} && SAVED in w.metas && w.flushes == map[]
    ensures w.version == 0
  {
    var w0 := Fresh([1]);
    var w1 := Overwritten(w0, {0}, [1]).(held := {0}, dirty := true, needSync := true);
    FirstFill(w0, w1);
    var w2, w3, w4 := FlushOne(w1);
    w := w4.(metas := w4.metas + {SAVED}, flushes := w4.flushes - {0});
    assert Next(w4, Persist(0), w);
    run, steps := [w0, w1, w2, w3, w4, w], [Step.Fill({0}), Begin(0), SyncStart(0), SyncDone(0), Persist(0)];
  }

  lemma FlushOne(w1: Machine) returns (w2: Machine, w3: Machine, w4: Machine)
    requires w1.flushes == map[] && w1.held == {0} && w1.dirty && w1.needSync
    ensures Next(w1, Begin(0), w2) && Next(w2, SyncStart(0), w3) && Next(w3, SyncDone(0), w4)
    ensures w4 == w1.(clean := w4.clean, flushes := map[0 := Crash.Flush({0}, true, Crash.Synced)],
                      dirty := false, needSync := false)
  {
    var f := Crash.Flush({0}, true, Crash.Snapped);
    w2 := w1.(flushes := w1.flushes[0 := f], dirty := false, needSync := false);
    w3 := w2.(flushes := w2.flushes[0 := f.(phase := Crash.Syncing(Positions(w2.file)))]);
    w4 := w3.(clean := w3.clean + Positions(w2.file), flushes := w3.flushes[0 := f.(phase := Crash.Synced)]);
  }

  lemma FirstFill(w0: Machine, w1: Machine)
    requires w0 == Fresh([1]) && w1 == Overwritten(w0, {0}, [1]).(held := {0}, dirty := true, needSync := true)
    ensures Next(w0, Step.Fill({0}), w1) && w1.flushes == map[]
  {
    assert {0} - w0.held == {0};
    InPositions(w0.file, 0);
  }

  /** Saved, punched, and then a crash: the restart holds a zero that the backend does not have. */
  lemma PunchThenCrash()
    ensures exists run: seq<Machine>, steps: seq<Step> ::
      Run(run, steps) && run[0] == Fresh([1]) && run[|steps|].Current() && !Coherent(run[|steps|].View())
  {
    var run, steps, w := SaveOne();
    var p := w.(file := [0], clean := w.clean - {0}, held := {}, dirty := true);
    var r := Restarted(p, [0], SAVED);
    PunchAndRestart(w, p, r);
    var run', steps' := run + [p, r], steps + [Step.Punch({0}), Restart([0], SAVED)];
    forall i | 0 <= i < |steps'| ensures Next(run'[i], steps'[i], run'[i + 1]) {
      if i < |steps| { assert Next(run[i], steps[i], run[i + 1]); }
    }
    assert run'[0] == run[0] && run'[|steps'|] == r && Run(run', steps');
  }

  lemma PunchAndRestart(w: Machine, p: Machine, r: Machine)
    requires w.Current() && w.backend == [1] && w.file == [1] && w.held == {0} && SAVED in w.metas && w.flushes == map[]
    requires w.version == 0 && p == w.(file := [0], clean := w.clean - {0}, held := {}, dirty := true)
    requires r == Restarted(p, [0], SAVED)
    ensures Next(w, Step.Punch({0}), p) && Next(p, Restart([0], SAVED), r)
    ensures r.Current() && !Coherent(r.View())
  {
    assert Unsettled(w.flushes, {0}) == map[];
    assert w.held - {0} == {};
    InPositions(r.file, 0);
    assert 0 in r.held && At(r.file, 0) == 0 && At(r.backend, 0) == 1;
  }
}
