/**
 The sparse cached copy of one backend object and the steps that change it
 (facetcache/item.go, download.go, file.go, janitor.go).

 A fill is two steps: the bytes are read from the backend, and later they are
 published under the item lock.  Everything else is one step.  Below, the bytes a
 range list covers are `held`, and a byte past the end of a file reads as zero.
 */
module CacheContent {
  import opened RangeSet

  type Byte = n: int | 0 <= n < 256

  function At(file: seq<Byte>, b: int): Byte { if 0 <= b < |file| then file[b] else 0 }

  function Resized(file: seq<Byte>, n: nat): (r: seq<Byte>)
    ensures |r| == n && forall b | 0 <= b < n :: r[b] == At(file, b)
  {
    seq(n, i => At(file, i))
  }

  function Max(a: int, b: int): int { if a < b then b else a }

  function Min(a: int, b: int): int { if a < b then a else b }

  /** The file after `p` is written at `off`. */
  function Written(file: seq<Byte>, off: nat, p: seq<Byte>): (r: seq<Byte>)
    ensures |r| == Max(|file|, off + |p|)
    ensures forall b :: At(r, b) == if off <= b < off + |p| then p[b - off] else At(file, b)
  {
    seq(Max(|file|, off + |p|), i => if off <= i < off + |p| then p[i - off] else At(file, i))
  }

  datatype Content = Content(backend: seq<Byte>, disk: seq<Byte>, held: set<int>, size: int)

  /** Bytes read from the backend and not yet published. */
  datatype Fill = Fill(off: nat, data: seq<Byte>) {
    function Range(): Rng { Rng(off, |data|) }

    /** The part of the fill inside the item. */
    function Clip(size: int): Rng { Rng(off, Min(|data|, size - off)) }
  }

  /** Every covered byte lies inside the item and equals the backend's byte. */
  ghost predicate Coherent(c: Content) {
    0 <= c.size <= |c.backend| && forall b | b in c.held :: 0 <= b < c.size && At(c.disk, b) == At(c.backend, b)
  }

  /** The item ends where the backend object ends, and its file is blank from there on. */
  ghost predicate Tracks(c: Content) {
    c.size == |c.backend| && forall b | c.size <= b :: At(c.disk, b) == 0
  }

  // What each operation does to the item.  The disk is described byte by byte, because a
  // failed write may leave anything in the range it was given.

  ghost predicate Published(c: Content, f: Fill, c': Content) {
    && c' == c.(disk := c'.disk, held := c.held + Span(f.Clip(c.size)))
    && forall b :: At(c'.disk, b) == if b in Span(f.Clip(c.size)) - c.held then At(f.data, b - f.off) else At(c.disk, b)
  }

  ghost predicate FailedPublish(c: Content, f: Fill, c': Content) {
    && c' == c.(disk := c'.disk)
    && forall b | b !in Span(f.Clip(c.size)) - c.held :: At(c'.disk, b) == At(c.disk, b)
  }

  function AfterWrite(c: Content, off: nat, p: seq<Byte>): Content {
    Content(Written(c.backend, off, p), Written(c.disk, off, p),
            c.held + Span(Rng(off, |p|)), Max(c.size, off + |p|))
  }

  ghost predicate FailedMirror(c: Content, off: nat, p: seq<Byte>, c': Content) {
    && c' == Content(Written(c.backend, off, p), c'.disk, c.held - Span(Rng(off, |p|)), c.size)
    && forall b | !Rng(off, |p|).Holds(b) :: At(c'.disk, b) == At(c.disk, b)
  }

  /** A resize keeps what is below the new size and claims the region it adds. */
  function AfterTruncate(c: Content, n: nat): Content {
    Content(Resized(c.backend, n), Resized(c.disk, n),
            (set b | b in c.held && b < n) + Span(Rng(c.size, n - c.size)), n)
  }

  ghost predicate Punched(c: Content, hole: set<int>, c': Content) {
    && hole <= c.held && c' == c.(disk := c'.disk, held := c.held - hole)
    && forall b | b !in hole :: At(c'.disk, b) == At(c.disk, b)
  }

  // ------------------------------------------------------------- one fill

  /** Outside `stale`, the fill carries the backend's bytes. */
  ghost predicate Carries(backend: seq<Byte>, f: Fill, stale: set<int>) {
    forall b | f.Range().Holds(b) && b !in stale :: At(f.data, b - f.off) == At(backend, b)
  }

  /** Every stale byte the publish could store is held, so that it is skipped. */
  ghost predicate StaleHeld(c: Content, f: Fill, stale: set<int>) {
    forall b | b in stale && f.Clip(c.size).Holds(b) :: b in c.held
  }

  lemma PublishKeeps(c: Content, f: Fill, stale: set<int>, c': Content)
    requires Coherent(c) && Carries(c.backend, f, stale) && StaleHeld(c, f, stale) && Published(c, f, c')
    ensures Coherent(c') && (Tracks(c) ==> Tracks(c'))
  {
    forall b | b in c'.held ensures 0 <= b < c'.size && At(c'.disk, b) == At(c'.backend, b) {
      if b !in c.held { assert f.Clip(c.size).Holds(b) && f.Range().Holds(b); }
    }
    forall b | c.size <= b && Tracks(c) ensures At(c'.disk, b) == 0 {
      assert b in Span(f.Clip(c.size)) ==> f.Clip(c.size).Holds(b);
    }
  }

  /** The item as it would be with another backend object behind it. */
  ghost predicate Behind(c: Content, backend: seq<Byte>, f: Fill, stale: set<int>) {
    Coherent(c.(backend := backend)) && Carries(backend, f, stale)
  }

  /** The disk a publish leaves. */
  function PublishedDisk(c: Content, f: Fill): (d: seq<Byte>)
    ensures forall b | 0 <= b ::
      At(d, b) == if b in Span(f.Clip(c.size)) - c.held then At(f.data, b - f.off) else At(c.disk, b)
  {
    seq(Max(|c.disk|, Max(0, c.size)),
        i requires 0 <= i => if i in Span(f.Clip(c.size)) - c.held then At(f.data, i - f.off) else At(c.disk, i))
  }

  /**
   A publish is safe exactly when every byte of it that was changed since it was read is
   held.  Safe means: with any backend object that agrees with the item where it is
   covered and with the fill where nothing was changed, the item stays coherent.
   */
  lemma PublishSafeIff(c: Content, f: Fill, stale: set<int>)
    requires Behind(c, c.backend, f, stale)
    ensures StaleHeld(c, f, stale) <==>
      forall backend, c' | Behind(c, backend, f, stale) && Published(c.(backend := backend), f, c') :: Coherent(c')
  {
    if StaleHeld(c, f, stale) {
      forall backend, c' | Behind(c, backend, f, stale) && Published(c.(backend := backend), f, c')
        ensures Coherent(c')
      {
        PublishKeeps(c.(backend := backend), f, stale, c');
      }
    } else {
      var b :| b in stale && f.Clip(c.size).Holds(b) && b !in c.held;
      Unsafe(c, f, stale, b);
    }
  }

  /** One changed byte that is not held: a backend that now differs there makes the publish wrong. */
  lemma Unsafe(c: Content, f: Fill, stale: set<int>, b: int)
    requires Behind(c, c.backend, f, stale) && b in stale && f.Clip(c.size).Holds(b) && b !in c.held
    ensures exists backend, c' ::
      Behind(c, backend, f, stale) && Published(c.(backend := backend), f, c') && !Coherent(c')
  {
    var other: Byte := if At(f.data, b - f.off) == 0 then 1 else 0;
    var backend := c.backend[b := other];
    var c' := DoPublish(c.(backend := backend), f);
    DoPublishes(c.(backend := backend), f);
    StillBehind(c, f, stale, b, other);
    assert b in c'.held && At(c'.disk, b) == At(f.data, b - f.off) && At(c'.backend, b) == other;
  }

  function DoPublish(c: Content, f: Fill): Content {
    c.(disk := PublishedDisk(c, f), held := c.held + Span(f.Clip(c.size)))
  }

  lemma DoPublishes(c: Content, f: Fill)
    ensures Published(c, f, DoPublish(c, f))
  {
    var d := PublishedDisk(c, f);
    forall b ensures At(d, b) == if b in Span(f.Clip(c.size)) - c.held then At(f.data, b - f.off) else At(c.disk, b) {
      assert b in Span(f.Clip(c.size)) ==> f.Clip(c.size).Holds(b);
    }
  }

  lemma StillBehind(c: Content, f: Fill, stale: set<int>, b: int, other: Byte)
    requires Behind(c, c.backend, f, stale) && b in stale && 0 <= b < c.size && b !in c.held
    ensures Behind(c, c.backend[b := other], f, stale)
  {}

  // --------------------------------------------------------- one truncate

  lemma TruncateKeeps(c: Content, n: nat)
    requires Coherent(c) && (n <= c.size || Tracks(c))
    ensures Coherent(AfterTruncate(c, n)) && Tracks(AfterTruncate(c, n))
  {
    forall b | b in AfterTruncate(c, n).held
      ensures 0 <= b < n && At(Resized(c.disk, n), b) == At(Resized(c.backend, n), b)
    {
      if b !in c.held { assert Rng(c.size, n - c.size).Holds(b); }
    }
  }

  /** An item of the same size and coverage; `slipped` says whether a mirror past its end has failed. */
  ghost predicate Alike(c: Content, slipped: bool, d: Content) {
    d.held == c.held && d.size == c.size && Coherent(d) && (!slipped ==> Tracks(d))
  }

  /**
   A truncate is safe exactly when it does not extend the item, or no mirror past the
   item's end has failed before.
   */
  lemma TruncateSafeIff(c: Content, slipped: bool, n: nat)
    requires Alike(c, slipped, c)
    ensures (forall d | Alike(c, slipped, d) :: Coherent(AfterTruncate(d, n))) <==> n <= c.size || !slipped
  {
    if n <= c.size || !slipped {
      forall d | Alike(c, slipped, d) ensures Coherent(AfterTruncate(d, n)) { TruncateKeeps(d, n); }
    } else {
      var d := Content(c.backend[..c.size] + [1], Resized(c.disk, c.size), c.held, c.size);
      assert Alike(c, slipped, d);
      assert Rng(c.size, n - c.size).Holds(c.size);
      assert c.size in AfterTruncate(d, n).held;
      assert !Coherent(AfterTruncate(d, n));
    }
  }

  // ------------------------------------------------------------------ runs

  /** A fill under way, and the bytes of its range that were changed on the backend since it was read. */
  datatype Pending = Pending(fill: Fill, stale: set<int>) {
    ghost function Changed(bytes: set<int>): Pending { Pending(fill, stale + (bytes * Span(fill.Range()))) }

    /** A resize to `n` changes everything from `n` on. */
    ghost function Cut(n: int): Pending { Pending(fill, stale + set b | b in Span(fill.Range()) && n <= b) }
  }

  /** `slipped`: a mirror past the item's end has failed, and no truncate has come since. */
  datatype World = World(c: Content, pending: seq<Pending>, slipped: bool)

  datatype Step =
    | Read(off: nat, n: nat)
    | Publish(k: nat)
    | PublishFailed(k: nat)
    | Write(off: nat, p: seq<Byte>)
    | WriteMirrorFailed(off: nat, p: seq<Byte>)
    | Truncate(n: nat)
    | Punch(hole: set<int>)

  function Reading(c: Content, off: nat, n: nat): Fill {
    Fill(off, if off < |c.backend| then c.backend[off..Min(off + n, |c.backend|)] else [])
  }

  function Dropped(pending: seq<Pending>, k: nat): seq<Pending>
    requires k < |pending|
  {
    pending[..k] + pending[k + 1..]
  }

  ghost function AllChanged(pending: seq<Pending>, bytes: set<int>): seq<Pending> {
    seq(|pending|, k requires 0 <= k < |pending| => pending[k].Changed(bytes))
  }

  ghost function AllCut(pending: seq<Pending>, n: int): seq<Pending> {
    seq(|pending|, k requires 0 <= k < |pending| => pending[k].Cut(n))
  }

  ghost predicate Next(w: World, s: Step, w': World) {
    match s
    case Read(off, n) => w' == w.(pending := w.pending + [Pending(Reading(w.c, off, n), {})])
    case Publish(k) =>
      && k < |w.pending| && Published(w.c, w.pending[k].fill, w'.c)
      && w' == w.(c := w'.c, pending := Dropped(w.pending, k))
    case PublishFailed(k) =>
      && k < |w.pending| && FailedPublish(w.c, w.pending[k].fill, w'.c)
      && w' == w.(c := w'.c, pending := Dropped(w.pending, k))
    case Write(off, p) => w' == w.(c := AfterWrite(w.c, off, p), pending := AllChanged(w.pending, Span(Rng(off, |p|))))
    case WriteMirrorFailed(off, p) =>
      && FailedMirror(w.c, off, p, w'.c)
      && w' == World(w'.c, AllChanged(w.pending, Span(Rng(off, |p|))), w.slipped || off + |p| > w.c.size)
    case Truncate(n) => w' == World(AfterTruncate(w.c, n), AllCut(w.pending, n), false)
    case Punch(hole) => Punched(w.c, hole, w'.c) && w' == w.(c := w'.c)
  }

  /** The two things that have to be avoided, both visible before the step. */
  ghost predicate Careful(w: World, s: Step) {
    match s
    case Publish(k) => k < |w.pending| ==> StaleHeld(w.c, w.pending[k].fill, w.pending[k].stale)
    case Truncate(n) => n <= w.c.size || !w.slipped
    case _ => true
  }

  ghost predicate AllCarry(backend: seq<Byte>, pending: seq<Pending>) {
    forall k | 0 <= k < |pending| :: Carries(backend, pending[k].fill, pending[k].stale)
  }

  ghost predicate WorldOk(w: World) {
    Coherent(w.c) && (!w.slipped ==> Tracks(w.c)) && AllCarry(w.c.backend, w.pending)
  }

  lemma WriteKeeps(c: Content, off: nat, p: seq<Byte>)
    requires Coherent(c)
    ensures Coherent(AfterWrite(c, off, p)) && (Tracks(c) ==> Tracks(AfterWrite(c, off, p)))
  {}

  lemma WriteCarries(backend: seq<Byte>, off: nat, p: seq<Byte>, q: Pending)
    requires Carries(backend, q.fill, q.stale)
    ensures var q' := q.Changed(Span(Rng(off, |p|))); Carries(Written(backend, off, p), q'.fill, q'.stale)
  {
    var q' := q.Changed(Span(Rng(off, |p|)));
    forall b | q.fill.Range().Holds(b) && b !in q'.stale
      ensures At(q.fill.data, b - q.fill.off) == At(Written(backend, off, p), b)
    {
      assert b in Span(q.fill.Range()) && !Rng(off, |p|).Holds(b);
    }
  }

  lemma FailedMirrorKeeps(c: Content, off: nat, p: seq<Byte>, c': Content)
    requires Coherent(c) && FailedMirror(c, off, p, c')
    ensures Coherent(c') && (Tracks(c) && off + |p| <= c.size ==> Tracks(c'))
  {
    forall b | b in c'.held ensures 0 <= b < c'.size && At(c'.disk, b) == At(c'.backend, b) {
      assert !Rng(off, |p|).Holds(b);
    }
  }

  lemma CutCarries(backend: seq<Byte>, n: nat, q: Pending)
    requires Carries(backend, q.fill, q.stale)
    ensures Carries(Resized(backend, n), q.Cut(n).fill, q.Cut(n).stale)
  {
    forall b | q.fill.Range().Holds(b) && b !in q.Cut(n).stale
      ensures At(q.fill.data, b - q.fill.off) == At(Resized(backend, n), b)
    {
      assert b in Span(q.fill.Range());
    }
  }

  lemma PunchKeeps(c: Content, hole: set<int>, c': Content)
    requires Coherent(c) && Punched(c, hole, c')
    ensures Coherent(c') && (Tracks(c) ==> Tracks(c'))
  {}

  lemma FailedPublishKeeps(c: Content, f: Fill, c': Content)
    requires Coherent(c) && FailedPublish(c, f, c')
    ensures Coherent(c') && (Tracks(c) ==> Tracks(c'))
  {
    forall b | c.size <= b && Tracks(c) ensures At(c'.disk, b) == 0 {
      assert b in Span(f.Clip(c.size)) ==> f.Clip(c.size).Holds(b);
    }
  }

  lemma DroppedCarry(backend: seq<Byte>, pending: seq<Pending>, k: nat)
    requires k < |pending| && AllCarry(backend, pending)
    ensures AllCarry(backend, Dropped(pending, k))
  {
    var left := Dropped(pending, k);
    forall i | 0 <= i < |left| ensures Carries(backend, left[i].fill, left[i].stale) {
      assert left[i] == pending[if i < k then i else i + 1];
    }
  }

  lemma StepKeeps(w: World, s: Step, w': World)
    requires WorldOk(w) && Next(w, s, w') && Careful(w, s)
    ensures WorldOk(w')
  {
    match s
    case Read(off, n) =>
      assert Carries(w.c.backend, Reading(w.c, off, n), {});
    case Publish(k) =>
      PublishKeeps(w.c, w.pending[k].fill, w.pending[k].stale, w'.c);
      DroppedCarry(w.c.backend, w.pending, k);
    case PublishFailed(k) =>
      FailedPublishKeeps(w.c, w.pending[k].fill, w'.c);
      DroppedCarry(w.c.backend, w.pending, k);
    case Write(off, p) =>
      WriteKeeps(w.c, off, p);
      forall i | 0 <= i < |w.pending| { WriteCarries(w.c.backend, off, p, w.pending[i]); }
    case WriteMirrorFailed(off, p) =>
      FailedMirrorKeeps(w.c, off, p, w'.c);
      forall i | 0 <= i < |w.pending| { WriteCarries(w.c.backend, off, p, w.pending[i]); }
    case Truncate(n) =>
      TruncateKeeps(w.c, n);
      forall i | 0 <= i < |w.pending| { CutCarries(w.c.backend, n, w.pending[i]); }
    case Punch(hole) => PunchKeeps(w.c, hole, w'.c);
  }

  /** A run is a list of worlds joined by steps. */
  ghost predicate Run(ws: seq<World>, steps: seq<Step>) {
    && |ws| == |steps| + 1
    && forall i | 0 <= i < |steps| :: Next(ws[i], steps[i], ws[i + 1])
  }

  ghost predicate RunCareful(ws: seq<World>, steps: seq<Step>)
    requires |ws| == |steps| + 1
  {
    forall i | 0 <= i < |steps| :: Careful(ws[i], steps[i])
  }

  /**
   Whatever is interleaved between a fill's read and its publish, covered bytes equal
   backend bytes and lie inside the item, in every run in which no publish stores a byte
   that was changed since its read, and no truncate extends the item after a mirror past
   its end has failed.
   */
  lemma {:induction false} EveryRunCoherent(ws: seq<World>, steps: seq<Step>, i: nat)
    requires Run(ws, steps) && RunCareful(ws, steps) && WorldOk(ws[0]) && i < |ws|
    ensures WorldOk(ws[i])
  {
    if i > 0 {
      EveryRunCoherent(ws, steps, i - 1);
      StepKeeps(ws[i - 1], steps[i - 1], ws[i]);
    }
  }

  // ------------------------------------------------- fills that are spared

  /** No pending fill has a byte among these. */
  ghost predicate Spared(pending: seq<Pending>, bytes: set<int>) {
    forall k | 0 <= k < |pending| :: Span(pending[k].fill.Range()) !! bytes
  }

  /** A punch, a truncate or a failed mirror leaves alone what a fill under way has read. */
  ghost predicate Spares(w: World, s: Step) {
    match s
    case WriteMirrorFailed(off, p) => Spared(w.pending, Span(Rng(off, |p|)))
    case Truncate(n) =>
      && (n <= w.c.size || !w.slipped)
      && forall k | 0 <= k < |w.pending| :: w.pending[k].fill.Range().End() <= n
    case Punch(hole) => Spared(w.pending, hole)
    case _ => true
  }

  /** Every byte changed under a fill is held. */
  ghost predicate Covered(w: World) {
    forall k | 0 <= k < |w.pending| ::
      w.pending[k].stale <= w.c.held && w.pending[k].stale <= Span(w.pending[k].fill.Range())
  }

  lemma CoveredIsCareful(w: World, s: Step)
    requires Covered(w) && Spares(w, s)
    ensures Careful(w, s)
  {}

  lemma SparedKeepsCovered(w: World, s: Step, w': World)
    requires Covered(w) && Next(w, s, w') && Spares(w, s)
    ensures Covered(w')
  {
    match s
    case Publish(k) => DroppedCovered(w, k, w');
    case PublishFailed(k) => DroppedCovered(w, k, w');
    case Truncate(n) =>
      forall k | 0 <= k < |w.pending| ensures w.pending[k].Cut(n).stale == w.pending[k].stale {
        assert forall b | b in Span(w.pending[k].fill.Range()) :: w.pending[k].fill.Range().Holds(b);
      }
    case _ =>
  }

  lemma DroppedCovered(w: World, k: nat, w': World)
    requires Covered(w) && k < |w.pending| && w.c.held <= w'.c.held && w'.pending == Dropped(w.pending, k)
    ensures Covered(w')
  {
    forall i | 0 <= i < |w'.pending|
      ensures w'.pending[i].stale <= w'.c.held && w'.pending[i].stale <= Span(w'.pending[i].fill.Range())
    {
      assert w'.pending[i] == w.pending[if i < k then i else i + 1];
    }
  }

  /** With fills spared from read to publish no publish needs care: the run is coherent. */
  lemma {:induction false} SparedRunCoherent(ws: seq<World>, steps: seq<Step>, i: nat)
    requires Run(ws, steps) && (forall k | 0 <= k < |steps| :: Spares(ws[k], steps[k]))
    requires WorldOk(ws[0]) && Covered(ws[0]) && i < |ws|
    ensures WorldOk(ws[i]) && Covered(ws[i])
  {
    if i > 0 {
      SparedRunCoherent(ws, steps, i - 1);
      CoveredIsCareful(ws[i - 1], steps[i - 1]);
      StepKeeps(ws[i - 1], steps[i - 1], ws[i]);
      SparedKeepsCovered(ws[i - 1], steps[i - 1], ws[i]);
    }
  }

  // ----------------------------------------- why the care cannot be dropped

  const ONE_BYTE := World(Content([1], [0], {}, 1), [], false)

  /** The byte 1 was read at 0; 2 has been written there since. */
  const LATE := Pending(Fill(0, [1]), {0})

  lemma ReadOne(w: World)
    requires w == ONE_BYTE
    ensures Next(w, Read(0, 1), w.(pending := [Pending(Fill(0, [1]), {})]))
  {
    assert Reading(w.c, 0, 1) == Fill(0, [1]);
  }

  /** Publishing `LATE` into an item of `size` bytes that does not hold byte 0 and whose backend differs there. */
  lemma LatePublish(w: World)
    requires w.pending == [LATE] && 0 < w.c.size && 0 !in w.c.held && At(w.c.backend, 0) != 1
    ensures exists w' :: Next(w, Publish(0), w') && !Coherent(w'.c)
  {
    var w' := w.(c := DoPublish(w.c, LATE.fill), pending := []);
    DoPublishes(w.c, LATE.fill);
    assert LATE.fill.Clip(w.c.size).Holds(0);
    assert 0 in w'.c.held;
    assert Next(w, Publish(0), w');
  }

  /** A fill read before a write-through survives a punch of the written range, then fills the hole with old bytes. */
  lemma PunchBreaks()
    ensures exists w1, w2, w3, w4 ::
      && Next(ONE_BYTE, Read(0, 1), w1) && Next(w1, Write(0, [2]), w2) && Next(w2, Punch({0}), w3)
      && WorldOk(w3) && Next(w3, Publish(0), w4) && !Coherent(w4.c)
  {
    var w0 := ONE_BYTE;
    var w1 := w0.(pending := [Pending(Fill(0, [1]), {})]);
    ReadOne(w0);
    StepKeeps(w0, Read(0, 1), w1);
    var w2 := w1.(c := AfterWrite(w1.c, 0, [2]), pending := AllChanged(w1.pending, Span(Rng(0, 1))));
    assert Next(w1, Write(0, [2]), w2);
    StepKeeps(w1, Write(0, [2]), w2);
    OneStale(w1, w2);
    var w3 := w2.(c := w2.c.(held := w2.c.held - {0}));
    assert Next(w2, Punch({0}), w3);
    StepKeeps(w2, Punch({0}), w3);
    LatePublish(w3);
  }

  lemma OneStale(w1: World, w2: World)
    requires w1.pending == [Pending(Fill(0, [1]), {})] && w2.pending == AllChanged(w1.pending, Span(Rng(0, 1)))
    ensures w2.pending == [LATE] && Rng(0, 1).Holds(0) && 0 in Span(Rng(0, 1))
  {
    assert Rng(0, 1).Holds(0);
    assert forall b | b in Span(Rng(0, 1)) :: Rng(0, 1).Holds(b);
    assert w1.pending[0].Changed(Span(Rng(0, 1))).stale == {0};
  }

  /** The same with a mirror that fails. */
  lemma FailedMirrorBreaks()
    ensures exists w1, w2, w3 ::
      && Next(ONE_BYTE, Read(0, 1), w1) && Next(w1, WriteMirrorFailed(0, [2]), w2)
      && WorldOk(w2) && Next(w2, Publish(0), w3) && !Coherent(w3.c)
  {
    var w0 := ONE_BYTE;
    var w1 := w0.(pending := [Pending(Fill(0, [1]), {})]);
    ReadOne(w0);
    StepKeeps(w0, Read(0, 1), w1);
    var c2 := Content(Written([1], 0, [2]), [0], {} - Span(Rng(0, 1)), 1);
    var w2 := World(c2, AllChanged(w1.pending, Span(Rng(0, 1))), false);
    assert Next(w1, WriteMirrorFailed(0, [2]), w2);
    StepKeeps(w1, WriteMirrorFailed(0, [2]), w2);
    OneStale(w1, w2);
    LatePublish(w2);
  }

  /** A shrink past a fill, then a write that leaves a gap: the late publish puts old bytes into the gap. */
  lemma TruncateBreaks()
    ensures exists w1, w2, w3, w4 ::
      && Next(ONE_BYTE, Read(0, 1), w1) && Next(w1, Truncate(0), w2) && Next(w2, Write(1, [5]), w3)
      && WorldOk(w3) && Next(w3, Publish(0), w4) && !Coherent(w4.c)
  {
    var w1, w2 := CutToNothing();
    var w3 := w2.(c := AfterWrite(w2.c, 1, [5]), pending := AllChanged(w2.pending, Span(Rng(1, 1))));
    assert Next(w2, Write(1, [5]), w3);
    StepKeeps(w2, Write(1, [5]), w3);
    GapWrite(w2, w3);
    LatePublish(w3);
  }

  lemma CutToNothing() returns (w1: World, w2: World)
    ensures Next(ONE_BYTE, Read(0, 1), w1) && Next(w1, Truncate(0), w2) && WorldOk(w2)
    ensures w2.c.held == {} && w2.c.backend == [] && w2.pending == [LATE]
  {
    var w0 := ONE_BYTE;
    w1 := w0.(pending := [Pending(Fill(0, [1]), {})]);
    ReadOne(w0);
    StepKeeps(w0, Read(0, 1), w1);
    w2 := World(AfterTruncate(w1.c, 0), AllCut(w1.pending, 0), false);
    StepKeeps(w1, Truncate(0), w2);
    CutState(w1, w2);
  }

  lemma CutState(w1: World, w2: World)
    requires w1.c == ONE_BYTE.c && w1.pending == [Pending(Fill(0, [1]), {})]
    requires w2 == World(AfterTruncate(w1.c, 0), AllCut(w1.pending, 0), false)
    ensures w2.c.held == {} && w2.c.backend == [] && w2.pending == [LATE]
  {
    CutOne(w1.pending[0]);
    assert w2.pending[0] == w1.pending[0].Cut(0);
    assert Span(Rng(1, -1)) == {};
  }

  lemma CutOne(q: Pending)
    requires q == Pending(Fill(0, [1]), {})
    ensures q.Cut(0).stale == {0}
  {
    assert q.fill.Range().Holds(0);
    assert forall b | b in Span(q.fill.Range()) :: q.fill.Range().Holds(b);
  }

  lemma GapWrite(w2: World, w3: World)
    requires w2.c.held == {} && w2.c.backend == [] && w2.pending == [LATE]
    requires w3.c == AfterWrite(w2.c, 1, [5]) && w3.pending == AllChanged(w2.pending, Span(Rng(1, 1)))
    ensures w3.pending == [LATE] && 0 !in w3.c.held && At(w3.c.backend, 0) == 0
  {
    assert forall b | b in Span(Rng(1, 1)) :: Rng(1, 1).Holds(b);
    assert forall b | b in Span(LATE.fill.Range()) :: LATE.fill.Range().Holds(b);
    assert LATE.Changed(Span(Rng(1, 1))).stale == {0};
  }

  /**
   After a failed mirror past the end, an extending truncate claims zeros where the
   backend keeps data, with no fill under way at all.
   */
  lemma ExtendBreaks()
    ensures exists w1, w2 ::
      && Next(World(Content([], [], {}, 0), [], false), WriteMirrorFailed(0, [7]), w1) && WorldOk(w1)
      && Next(w1, Truncate(2), w2) && !Coherent(w2.c)
  {
    var w0 := World(Content([], [], {}, 0), [], false);
    var w1 := World(Content(Written([], 0, [7]), [], {} - Span(Rng(0, 1)), 0), AllChanged([], Span(Rng(0, 1))), true);
    assert Next(w0, WriteMirrorFailed(0, [7]), w1);
    StepKeeps(w0, WriteMirrorFailed(0, [7]), w1);
    var w2 := World(AfterTruncate(w1.c, 2), AllCut(w1.pending, 2), false);
    assert Next(w1, Truncate(2), w2);
    assert At(w1.c.backend, 0) == 7 && At(w1.c.disk, 0) == 0;
    assert Rng(0, 2).Holds(0);
    assert 0 in w2.c.held;
  }
}
