/**
 The item operations as steps of the crash model (facetcache/item.go, flushMeta with
 writeNoOverwrite and mirrorWrite).

 flushMeta drops the item lock after its snapshot, so it is three operations here, and
 the item may change between them.  The ledger says what is on disk.
 */
module CacheFlush {
  import opened RangeSet
  import opened CacheContent
  import opened ContentCache
  import Crash = CacheCrash

  /** What has happened to the data file and the metadata file on disk. */
  datatype Ledger = Ledger(written: set<int>, durable: set<int>, flushes: map<nat, Crash.Flush>, persisted: set<int>)

  ghost function DurabilityOf(s: State, l: Ledger): Crash.Durability {
    Crash.Durability(Bytes(s.rs), s.dirty, s.needSync, l.written, l.durable, l.flushes, l.persisted)
  }

  /** A fill is the crash model's fill step: it raises the flags exactly when it stores something. */
  lemma FillDurable(s: State, f: Fill, s': State, l: Ledger)
    requires forall bk :: Published(s.Content(bk), f, s'.Content(bk))
    requires Flagged(s, !(Span(f.Clip(s.size)) <= Bytes(s.rs)), s')
    ensures DurabilityOf(s', l.(written := l.written + (Span(f.Clip(s.size)) - Bytes(s.rs))))
         == Crash.Apply(DurabilityOf(s, l), Crash.Fill(Span(f.Clip(s.size))))
  {
    assert Published(s.Content([]), f, s'.Content([]));
    if Span(f.Clip(s.size)) <= Bytes(s.rs) {
      assert Span(f.Clip(s.size)) - Bytes(s.rs) == {};
      assert Bytes(s'.rs) == Bytes(s.rs);
    }
  }

  lemma FailedFillDurable(s: State, f: Fill, s': State, l: Ledger, stored: set<int>)
    requires forall bk :: FailedPublish(s.Content(bk), f, s'.Content(bk))
    requires Flagged(s, false, s')
    ensures var l' := l.(written := l.written + stored);
            DurabilityOf(s', l') == Crash.Apply(DurabilityOf(s, l), Crash.FillFailed(stored))
  {
    assert FailedPublish(s.Content([]), f, s'.Content([]));
  }

  lemma MirrorDurable(s: State, off: nat, p: seq<Byte>, s': State, l: Ledger)
    requires forall bk :: s'.Content(Written(bk, off, p)) == AfterWrite(s.Content(bk), off, p)
    requires s'.dirty && s'.needSync
    ensures DurabilityOf(s', l.(written := l.written + Span(Rng(off, |p|))))
         == Crash.Apply(DurabilityOf(s, l), Crash.Mirror(Span(Rng(off, |p|))))
  {
    assert s'.Content(Written([], off, p)) == AfterWrite(s.Content([]), off, p);
  }

  lemma FailedMirrorDurable(s: State, off: nat, p: seq<Byte>, s': State, l: Ledger, stored: set<int>)
    requires forall bk :: FailedMirror(s.Content(bk), off, p, s'.Content(Written(bk, off, p)))
    requires Flagged(s, false, s')
    ensures DurabilityOf(s', l.(written := l.written + stored))
         == Crash.Apply(DurabilityOf(s, l), Crash.MirrorFailed(Span(Rng(off, |p|)), stored))
  {
    assert FailedMirror(s.Content([]), off, p, s'.Content(Written([], off, p)));
  }

  // --------------------------------------------------------- flush phases

  /** The snapshot, taken under the lock. */
  method FlushSnapshot(s: State, ghost l: Ledger, ghost id: nat)
    returns (s': State, started: bool, snap: Ranges, need: bool, ghost l': Ledger)
    requires id !in l.flushes
    ensures started == (s.dirty && s.Live())
    ensures if started then Does(s, l, Snapshot(id), s', l') else s' == s && l' == l
    ensures started ==> l'.flushes[id] == Crash.Flush(Bytes(snap), need, Crash.Snapped)
  {
    s', started, snap, need, l' := s, false, [], false, l;
    if !s.dirty || s.doomed || !s.loaded { return; }
    started, snap, need := true, s.rs, s.needSync;
    s' := s.(dirty := false, needSync := false);
    l' := l.(flushes := l.flushes[id := Crash.Flush(Bytes(snap), need, Crash.Snapped)]);
  }

  ghost function SyncStarted(l: Ledger, id: nat): Ledger
    requires id in l.flushes
  {
    l.(flushes := l.flushes[id := l.flushes[id].(phase := Crash.Syncing(l.written))])
  }

  /** The end of the fdatasync. */
  method FlushSynced(s: State, ghost l: Ledger, ghost id: nat, ok: bool) returns (s': State, ghost l': Ledger)
    requires id in l.flushes && l.flushes[id].phase.Syncing? && l.flushes[id].need
    ensures Does(s, l, Synced(id, ok), s', l')
  {
    if ok {
      var f := l.flushes[id];
      s', l' := s, l.(durable := l.durable + f.phase.before, flushes := l.flushes[id := f.(phase := Crash.Synced)]);
    } else {
      s', l' := s.(dirty := true, needSync := true), l.(flushes := l.flushes - {id});
    }
  }

  /** The metadata file is written and renamed into place. */
  method FlushWritten(s: State, ghost l: Ledger, ghost id: nat, need: bool, ok: bool)
    returns (s': State, ghost l': Ledger)
    requires id in l.flushes && l.flushes[id].Ready() && need == l.flushes[id].need
    ensures Does(s, l, Wrote(id, ok), s', l')
  {
    if ok {
      s', l' := s, l.(persisted := l.flushes[id].claims, flushes := l.flushes - {id});
    } else {
      s', l' := s.(dirty := true, needSync := s.needSync || need), l.(flushes := l.flushes - {id});
    }
  }

  // ----------------------------------------------------------- whole runs

  /** An operation on the item or a phase of a flush. */
  datatype Op =
    | Filling(f: Fill)
    | FillingFailed(f: Fill, stored: set<int>)
    | Mirroring(off: nat, p: seq<Byte>)
    | MirroringFailed(off: nat, p: seq<Byte>, stored: set<int>)
    | Touching
    | Snapshot(id: nat)
    | SyncStart(id: nat)
    | Synced(id: nat, ok: bool)
    | Wrote(id: nat, ok: bool)

  /** Only the flags of the state differ. */
  predicate OnlyFlags(s: State, dirty: bool, needSync: bool, s': State) {
    s' == s.(dirty := dirty, needSync := needSync)
  }

  /** What the operations do to the item and to the disk. */
  ghost predicate Does(s: State, l: Ledger, op: Op, s': State, l': Ledger) {
    match op
    case Filling(f) =>
      && (forall bk :: Published(s.Content(bk), f, s'.Content(bk)))
      && Flagged(s, !(Span(f.Clip(s.size)) <= Bytes(s.rs)), s')
      && l' == l.(written := l.written + (Span(f.Clip(s.size)) - Bytes(s.rs)))
    case FillingFailed(f, stored) =>
      && (forall bk :: FailedPublish(s.Content(bk), f, s'.Content(bk)))
      && Flagged(s, false, s') && l' == l.(written := l.written + stored)
    case Mirroring(off, p) =>
      && (forall bk :: s'.Content(Written(bk, off, p)) == AfterWrite(s.Content(bk), off, p))
      && s'.dirty && s'.needSync && l' == l.(written := l.written + Span(Rng(off, |p|)))
    case MirroringFailed(off, p, stored) =>
      && (forall bk :: FailedMirror(s.Content(bk), off, p, s'.Content(Written(bk, off, p))))
      && Flagged(s, false, s') && l' == l.(written := l.written + stored)
    case Touching => OnlyFlags(s, true, s.needSync, s') && l' == l
    case Snapshot(id) =>
      && s.dirty && id !in l.flushes && OnlyFlags(s, false, false, s')
      && l' == l.(flushes := l.flushes[id := Crash.Flush(Bytes(s.rs), s.needSync, Crash.Snapped)])
    case SyncStart(id) =>
      && id in l.flushes && l.flushes[id].need && l.flushes[id].phase.Snapped?
      && s' == s && l' == SyncStarted(l, id)
    case Synced(id, ok) =>
      && id in l.flushes && l.flushes[id].need && l.flushes[id].phase.Syncing?
      && OnlyFlags(s, s.dirty || !ok, s.needSync || !ok, s')
      && l' == if ok then l.(durable := l.durable + l.flushes[id].phase.before,
                             flushes := l.flushes[id := l.flushes[id].(phase := Crash.Synced)])
               else l.(flushes := l.flushes - {id})
    case Wrote(id, ok) =>
      && id in l.flushes && l.flushes[id].Ready()
      && OnlyFlags(s, s.dirty || !ok, s.needSync || (!ok && l.flushes[id].need), s')
      && l' == l.(flushes := l.flushes - {id}, persisted := if ok then l.flushes[id].claims else l.persisted)
  }

  /** The step of the crash model that an operation is. */
  ghost function StepOf(s: State, op: Op): Crash.Step {
    match op
    case Filling(f) => Crash.Fill(Span(f.Clip(s.size)))
    case FillingFailed(_, stored) => Crash.FillFailed(stored)
    case Mirroring(off, p) => Crash.Mirror(Span(Rng(off, |p|)))
    case MirroringFailed(off, p, stored) => Crash.MirrorFailed(Span(Rng(off, |p|)), stored)
    case Touching => Crash.Touch
    case Snapshot(id) => Crash.Begin(id)
    case SyncStart(id) => Crash.SyncStart(id)
    case Synced(id, ok) => if ok then Crash.SyncDone(id) else Crash.SyncFailed(id)
    case Wrote(id, ok) => if ok then Crash.Persist(id) else Crash.PersistFailed(id)
  }

  lemma OpIsStep(s: State, l: Ledger, op: Op, s': State, l': Ledger)
    requires Does(s, l, op, s', l')
    ensures Crash.Enabled(DurabilityOf(s, l), StepOf(s, op))
    ensures DurabilityOf(s', l') == Crash.Apply(DurabilityOf(s, l), StepOf(s, op))
  {
    match op
    case Filling(f) => FillDurable(s, f, s', l);
    case FillingFailed(f, stored) => FailedFillDurable(s, f, s', l, stored);
    case Mirroring(off, p) => MirrorDurable(s, off, p, s', l);
    case MirroringFailed(off, p, stored) => FailedMirrorDurable(s, off, p, s', l, stored);
    case _ =>
  }

  /** States and ledgers joined by operations, with no snapshot while another flush has yet to sync. */
  ghost predicate Run(ss: seq<State>, ls: seq<Ledger>, ops: seq<Op>) {
    && |ss| == |ls| == |ops| + 1
    && (forall i | 0 <= i < |ops| :: Does(ss[i], ls[i], ops[i], ss[i + 1], ls[i + 1]))
    && (forall i | 0 <= i < |ops| :: ops[i].Snapshot? ==> Crash.AllReady(ls[i].flushes))
  }

  lemma {:induction false} RunHonest(ss: seq<State>, ls: seq<Ledger>, ops: seq<Op>, i: nat)
    requires Run(ss, ls, ops) && i < |ss|
    requires Crash.Honest(DurabilityOf(ss[0], ls[0])) && Crash.Accounted(DurabilityOf(ss[0], ls[0]))
    ensures Crash.Honest(DurabilityOf(ss[i], ls[i])) && Crash.Accounted(DurabilityOf(ss[i], ls[i]))
  {
    if i > 0 {
      RunHonest(ss, ls, ops, i - 1);
      var d, step := DurabilityOf(ss[i - 1], ls[i - 1]), StepOf(ss[i - 1], ops[i - 1]);
      OpIsStep(ss[i - 1], ls[i - 1], ops[i - 1], ss[i], ls[i]);
      Crash.StepHonest(d, step);
      Crash.StepAccounted(d, step);
    }
  }

  /**
   Stop any run of fills, mirrors and flushes at any point: the metadata on disk claims
   only bytes that a finished sync has covered.
   */
  lemma StoppedAnywhere(ss: seq<State>, ls: seq<Ledger>, ops: seq<Op>, i: nat)
    requires Run(ss, ls, ops) && i < |ss| && Crash.Loaded(DurabilityOf(ss[0], ls[0]))
    ensures ls[i].persisted <= ls[i].durable
  {
    RunHonest(ss, ls, ops, i);
  }
}
