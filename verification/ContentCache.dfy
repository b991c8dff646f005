/**
 One item of the content cache (facetcache/item.go, janitor.go): its load, fills,
 mirrored writes, resizes and punches.

 The data file is a byte sequence, the backend object is a ghost byte sequence, and
 every input the operating system or the backend decides (a stat, the metadata file,
 whether a write succeeds) is a parameter.
 */
module ContentCache {
  import opened RangeSet
  import opened CacheContent
  import opened MapSums

  const FAR: int := 0x4000_0000_0000_0000

  /** A backend path, and whether it maps to files inside the cache directory. */
  datatype Name = Name(path: string, cacheable: bool)

  datatype Stat = Stat(size: nat, fingerprint: string)

  datatype Metadata = Missing | Corrupt | Metadata(fingerprint: string, ranges: seq<Rng>)

  predicate Matches(st: Stat, meta: Metadata) { meta.Metadata? && meta.fingerprint == st.fingerprint }

  /** The bytes an item claims after a load that started from `held`. */
  function LoadedBytes(held: set<int>, st: Stat, meta: Metadata): set<int> {
    if Matches(st, meta) then (held + Bytes(meta.ranges)) - Span(Rng(st.size, FAR - st.size)) else held
  }

  /** What the metadata alone allows a load to claim. */
  function Justified(st: Stat, meta: Metadata): set<int> { LoadedBytes({}, st, meta) }

  /** The bytes left over from before that a load keeps. */
  function LeftOver(held: set<int>, st: Stat, meta: Metadata): set<int> {
    if Matches(st, meta) then held - Span(Rng(st.size, FAR - st.size)) else held
  }

  /** A load claims what its metadata justifies exactly when what is left over from before is among it. */
  lemma LoadJustifiedIff(held: set<int>, st: Stat, meta: Metadata)
    ensures LoadedBytes(held, st, meta) == Justified(st, meta) <==> LeftOver(held, st, meta) <= Justified(st, meta)
  {
    assert LoadedBytes(held, st, meta) == LeftOver(held, st, meta) + Justified(st, meta);
  }

  /**
   The pwrite loop of a fill.  `writes` calls succeed, then one fails after storing
   `part` bytes of its run.
   */
  method StoreRuns(file: seq<Byte>, runs: Ranges, p: seq<Byte>, off: nat, writes: nat, part: nat)
    returns (out: seq<Byte>, ok: bool)
    requires RangeSet.Valid(runs)
    requires forall k | 0 <= k < |runs| :: off <= runs[k].pos && runs[k].End() <= off + |p|
    ensures ok ==> forall b :: At(out, b) == if b in Bytes(runs) then At(p, b - off) else At(file, b)
    ensures forall b | b !in Bytes(runs) :: At(out, b) == At(file, b)
    ensures ok <==> |runs| <= writes
  {
    out := file;
    BytesInside(runs, off, |p|);
    for i := 0 to |runs|
      invariant i <= writes
      invariant forall b :: At(out, b) == if b in Bytes(runs[..i]) then At(p, b - off) else At(file, b)
    {
      var m := runs[i];
      PrefixGrows(runs, i);
      PrefixSubset(runs, i);
      EntryBytes(runs, i);
      if i == writes {
        out := Written(out, m.pos, p[m.pos - off..][..Min(part, m.size)]);
        forall b | b !in Bytes(runs) ensures At(out, b) == At(file, b) { assert !m.Holds(b); }
        return out, false;
      }
      out := Written(out, m.pos, p[m.pos - off..m.End() - off]);
      forall b ensures At(out, b) == if b in Bytes(runs[..i + 1]) then At(p, b - off) else At(file, b) {
        assert b in Span(m) <==> m.Holds(b);
        assert b in Bytes(runs[..i + 1]) ==> b in Bytes(runs);
      }
    }
    assert runs[..|runs|] == runs;
    ok := true;
  }

  lemma BytesInside(runs: Ranges, off: int, n: int)
    requires forall k | 0 <= k < |runs| :: off <= runs[k].pos && runs[k].End() <= off + n
    ensures forall b | b in Bytes(runs) :: off <= b < off + n
  {
    forall b | b in Bytes(runs) ensures off <= b < off + n { BytesIff(runs, b); }
  }

  lemma PrefixSubset(runs: Ranges, i: nat)
    requires i < |runs|
    ensures Bytes(runs[..i + 1]) <= Bytes(runs)
  {
    assert runs == runs[..i + 1] + runs[i + 1..];
    BytesConcat(runs[..i + 1], runs[i + 1..]);
  }

  ghost predicate Near(held: set<int>) { forall b | b in held :: b < FAR }

  ghost predicate Natural(held: set<int>) { forall b | b in held :: 0 <= b }

  lemma SpanNatural(r: Rng)
    requires 0 <= r.pos
    ensures Natural(Span(r))
  {
    forall b | b in Span(r) ensures 0 <= b { assert r.Holds(b); }
  }

  lemma RunsInside(runs: Ranges, r: Rng)
    requires RangeSet.Valid(runs) && Bytes(runs) <= Span(r)
    ensures forall k | 0 <= k < |runs| :: r.pos <= runs[k].pos && runs[k].End() <= r.End()
  {
    forall k | 0 <= k < |runs| ensures r.pos <= runs[k].pos && runs[k].End() <= r.End() {
      EntryBytes(runs, k);
      assert runs[k].Holds(runs[k].pos) && runs[k].Holds(runs[k].End() - 1);
      assert runs[k].pos in Span(r) && runs[k].End() - 1 in Span(r);
    }
  }

  // ------------------------------------------------------------ item state

  /** The fields of an item that its lock guards. */
  datatype State = State(loaded: bool, doomed: bool, fd: seq<Byte>, rs: Ranges, size: int,
                         fingerprint: string, dirty: bool, needSync: bool)
  {
    ghost predicate Valid() { RangeSet.Valid(rs) && 0 <= size && Natural(Bytes(rs)) }

    predicate Live() { loaded && !doomed }

    /** The bytes the item contributes to the counter. */
    ghost function Charge(): int { if Live() then |Bytes(rs)| else 0 }

    ghost function Content(backend: seq<Byte>): Content { CacheContent.Content(backend, fd, Bytes(rs), size) }

    /** The rest of the state is untouched. */
    predicate SameBut(that: State) {
      loaded == that.loaded && doomed == that.doomed && fingerprint == that.fingerprint
    }
  }

  function Marked(s: State): State { s.(dirty := true, needSync := true) }

  /** Stores the missing part of `r`; on success the part becomes held. */
  method FillRange(s: State, r: Rng, p: seq<Byte>, writes: nat, part: nat) returns (s': State, ok: bool)
    requires s.Valid() && 0 <= r.pos && 0 < r.size <= |p|
    ensures s'.Valid() && s' == s.(fd := s'.fd, rs := s'.rs)
    ensures ok ==> Bytes(s'.rs) == Bytes(s.rs) + Span(r)
    ensures ok ==> forall b :: At(s'.fd, b) == if b in Span(r) - Bytes(s.rs) then At(p, b - r.pos) else At(s.fd, b)
    ensures !ok ==> s'.rs == s.rs && forall b | b !in Span(r) - Bytes(s.rs) :: At(s'.fd, b) == At(s.fd, b)
  {
    var runs := MissingWithin(s.rs, r, []);
    assert runs[0..] == runs;
    RunsInside(runs, r);
    var fd', stored := StoreRuns(s.fd, runs, p, r.pos, writes, part);
    if !stored { return s.(fd := fd'), false; }
    var rs' := Insert(s.rs, r);
    SpanNatural(r);
    return s.(fd := fd', rs := rs'), true;
  }

  lemma FilledPublishes(s: State, f: Fill, s': State)
    requires s'.size == s.size && Stored(s, f.Clip(s.size), f.data, s')
    ensures forall bk :: Published(s.Content(bk), f, s'.Content(bk))
  {}

  lemma NewBytes(held: set<int>, r: Rng, held': set<int>)
    requires held' == held + Span(r) && r.size > 0
    ensures r.size - (|held'| - |held|) == |held * Span(r)|
    ensures |held'| > |held| <==> !(Span(r) <= held)
    ensures |held'| >= |held|
  {
    CardUnion(held, Span(r));
    SpanSize(r);
  }

  /** FillRange with its bookkeeping: `written` bytes are new, `skipped` were there. */
  method FillCounted(s: State, r: Rng, p: seq<Byte>, writes: nat, part: nat)
    returns (s': State, skipped: int, written: int, ok: bool)
    requires s.Valid() && 0 <= r.pos && 0 < r.size <= |p|
    ensures s'.Valid() && s' == s.(fd := s'.fd, rs := s'.rs, dirty := s'.dirty, needSync := s'.needSync)
    ensures written == |Bytes(s'.rs)| - |Bytes(s.rs)|
    ensures ok ==> Stored(s, r, p, s') && skipped == |Bytes(s.rs) * Span(r)|
    ensures !ok ==> s'.rs == s.rs && forall b | b !in Span(r) - Bytes(s.rs) :: At(s'.fd, b) == At(s.fd, b)
    ensures Flagged(s, ok && !(Span(r) <= Bytes(s.rs)), s')
  {
    s', ok := FillRange(s, r, p, writes, part);
    if !ok { return s', 0, 0, false; }
    var before := Size(s.rs);
    var after := Size(s'.rs);
    NewBytes(Bytes(s.rs), r, Bytes(s'.rs));
    written := after - before;
    skipped := r.size - written;
    if written > 0 { s' := Marked(s'); }
  }

  ghost predicate Stored(s: State, r: Rng, p: seq<Byte>, s': State) {
    && Bytes(s'.rs) == Bytes(s.rs) + Span(r)
    && forall b :: At(s'.fd, b) == if b in Span(r) - Bytes(s.rs) then At(p, b - r.pos) else At(s.fd, b)
  }

  predicate Flagged(s: State, raise: bool, s': State) {
    if raise then s'.dirty && s'.needSync else s'.dirty == s.dirty && s'.needSync == s.needSync
  }

  /** writeNoOverwrite on a live item. */
  method Filled(s: State, p: seq<Byte>, off: nat, writes: nat, part: nat)
    returns (s': State, skipped: int, written: int, ok: bool)
    requires s.Valid()
    ensures s'.Valid() && s'.SameBut(s) && s'.size == s.size && written == |Bytes(s'.rs)| - |Bytes(s.rs)|
    ensures ok ==> forall bk :: Published(s.Content(bk), Fill(off, p), s'.Content(bk))
    ensures !ok ==> forall bk :: FailedPublish(s.Content(bk), Fill(off, p), s'.Content(bk))
    ensures ok && off < s.size && p != [] ==> skipped == |Bytes(s.rs) * Span(Fill(off, p).Clip(s.size))|
    ensures Flagged(s, ok && !(Span(Fill(off, p).Clip(s.size)) <= Bytes(s.rs)), s')
  {
    var r := Rng(off, |p|);
    if r.End() > s.size { r := Rng(off, s.size - off); }
    assert r == Fill(off, p).Clip(s.size);
    if r.size <= 0 {
      assert Span(r) == {};
      return s, |p|, 0, true;
    }
    s', skipped, written, ok := FillCounted(s, r, p, writes, part);
    if ok { FilledPublishes(s, Fill(off, p), s'); }
  }

  /** mirrorWrite on a live item whose data file accepts the write. */
  method Mirrored(s: State, p: seq<Byte>, off: nat) returns (s': State, delta: int)
    requires s.Valid()
    ensures s'.Valid() && s'.SameBut(s) && s'.dirty && s'.needSync && delta == |Bytes(s'.rs)| - |Bytes(s.rs)|
    ensures forall bk :: s'.Content(Written(bk, off, p)) == AfterWrite(s.Content(bk), off, p)
  {
    var before := Size(s.rs);
    var rs' := Insert(s.rs, Rng(off, |p|));
    SpanNatural(Rng(off, |p|));
    var after := Size(rs');
    var size' := if off + |p| > s.size then off + |p| else s.size;
    s' := Marked(s.(fd := Written(s.fd, off, p), rs := rs', size := size'));
    delta := after - before;
  }

  /** mirrorWrite on a live item whose data file takes only `part` bytes. */
  method Unmirrored(s: State, p: seq<Byte>, off: nat, part: nat) returns (s': State, delta: int)
    requires s.Valid()
    ensures s'.Valid() && s' == s.(fd := s'.fd, rs := s'.rs) && delta == |Bytes(s'.rs)| - |Bytes(s.rs)|
    ensures forall bk :: FailedMirror(s.Content(bk), off, p, s'.Content(Written(bk, off, p)))
  {
    var before := Size(s.rs);
    var rs' := Remove(s.rs, Rng(off, |p|));
    var after := Size(rs');
    s' := s.(fd := Written(s.fd, off, p[..Min(part, |p|)]), rs := rs');
    delta := after - before;
  }

  lemma TruncatedHeld(held: set<int>, size: int, n: nat)
    requires Natural(held) && Near(held)
    ensures held - Span(Rng(n, FAR - n)) == set b | b in held && b < n
  {
    forall b | b in held ensures b in Span(Rng(n, FAR - n)) <==> n <= b {
      assert Rng(n, FAR - n).Holds(b) <==> n <= b;
    }
  }

  /** What `AfterTruncate` says, of an item whose bytes all lie below the far end that truncate clears. */
  ghost predicate CutTo(s: State, n: nat, s': State) {
    Near(Bytes(s.rs)) ==> forall bk :: s'.Content(Resized(bk, n)) == AfterTruncate(s.Content(bk), n)
  }

  lemma TruncatedContent(s: State, n: nat, s': State)
    requires s.Valid() && s'.size == n && s'.fd == Resized(s.fd, n)
    requires Bytes(s'.rs) == (Bytes(s.rs) - Span(Rng(n, FAR - n))) + Span(Rng(s.size, n - s.size))
    ensures CutTo(s, n, s')
  {
    if Near(Bytes(s.rs)) { TruncatedHeld(Bytes(s.rs), s.size, n); }
  }

  method ResizedRanges(rs: Ranges, size: int, n: nat) returns (rs': Ranges)
    requires RangeSet.Valid(rs) && Natural(Bytes(rs)) && 0 <= size
    ensures RangeSet.Valid(rs') && Natural(Bytes(rs'))
    ensures Bytes(rs') == (Bytes(rs) - Span(Rng(n, FAR - n))) + Span(Rng(size, n - size))
  {
    rs' := Remove(rs, Rng(n, FAR - n));
    if n > size {
      rs' := Insert(rs', Rng(size, n - size));
      SpanNatural(Rng(size, n - size));
    } else {
      assert Span(Rng(size, n - size)) == {};
    }
  }

  method ResizedItem(s: State, n: nat) returns (s': State)
    requires s.Valid()
    ensures s'.Valid() && s'.SameBut(s) && s'.dirty && s'.needSync && CutTo(s, n, s')
  {
    var rs' := ResizedRanges(s.rs, s.size, n);
    s' := Marked(s.(fd := Resized(s.fd, n), rs := rs', size := n));
    TruncatedContent(s, n, s');
  }

  /** truncate on a live item whose data file accepts the resize. */
  method Truncated(s: State, n: nat) returns (s': State, delta: int)
    requires s.Valid()
    ensures s'.Valid() && s'.SameBut(s) && s'.dirty && s'.needSync && delta == |Bytes(s'.rs)| - |Bytes(s.rs)|
    ensures CutTo(s, n, s')
  {
    var before := Size(s.rs);
    s' := ResizedItem(s, n);
    var after := Size(s'.rs);
    delta := after - before;
  }

  // ---------------------------------------------------------------- punch

  /** Rounds inward to multiples of `align`. */
  function AlignPunch(r: Rng, align: int): Rng
    requires align > 0
  {
    if align == 1 then r
    else
      var pos := (r.pos + align - 1) / align * align;
      Rng(pos, r.End() / align * align - pos)
  }

  lemma AlignInside(r: Rng, align: int)
    requires align > 0 && 0 <= r.pos && r.size > 0
    ensures var a := AlignPunch(r, align); r.pos <= a.pos && a.End() <= r.End() && (a.size > 0 ==> Span(a) <= Span(r))
  {
    var a := AlignPunch(r, align);
    RoundUp(r.pos, align);
    RoundDown(r.End(), align);
    forall b | b in Span(a) ensures b in Span(r) { assert a.Holds(b) && r.Holds(b); }
  }

  lemma RoundUp(x: int, align: int)
    requires align > 0
    ensures x <= (x + align - 1) / align * align
  {
    assert x + align - 1 == (x + align - 1) / align * align + (x + align - 1) % align;
  }

  lemma RoundDown(x: int, align: int)
    requires align > 0
    ensures x / align * align <= x
  {
    assert x == x / align * align + x % align;
  }

  /** The covered ranges below `cut`. */
  method PunchList(rs: Ranges, cut: int) returns (punch: Ranges)
    requires RangeSet.Valid(rs)
    ensures |punch| <= |rs| && RangeSet.Valid(punch) && forall b :: b in Bytes(punch) <==> b in Bytes(rs) && b < cut
  {
    punch := [];
    for i := 0 to |rs|
      invariant |punch| <= i && PunchSoFar(rs, cut, i, punch)
    {
      PunchStep(rs, cut, i, punch);
      punch := punch + BelowCut(rs[i], cut);
    }
    assert rs[..|rs|] == rs;
  }

  function BelowCut(e: Rng, cut: int): Ranges {
    if e.End() <= cut then [e] else if e.pos < cut then [Rng(e.pos, cut - e.pos)] else []
  }

  ghost predicate PunchSoFar(rs: Ranges, cut: int, i: nat, punch: Ranges)
    requires i <= |rs|
  {
    && RangeSet.Valid(punch) && Apart(punch, rs[i..])
    && forall b :: b in Bytes(punch) <==> b in Bytes(rs[..i]) && b < cut
  }

  lemma PunchStep(rs: Ranges, cut: int, i: nat, punch: Ranges)
    requires RangeSet.Valid(rs) && i < |rs| && PunchSoFar(rs, cut, i, punch)
    ensures PunchSoFar(rs, cut, i + 1, punch + BelowCut(rs[i], cut))
  {
    var add := BelowCut(rs[i], cut);
    PrefixGrows(rs, i);
    BytesConcat(punch, add);
    assert rs[i..][0] == rs[i];
    forall b ensures b in Bytes(add) <==> b in Span(rs[i]) && b < cut {
      if add != [] {
        BytesOne(add[0]);
        assert b in Span(add[0]) <==> add[0].Holds(b);
      }
      assert b in Span(rs[i]) <==> rs[i].Holds(b);
    }
    PunchApart(rs, cut, i, punch);
    ValidConcat(punch, add);
  }

  lemma PunchApart(rs: Ranges, cut: int, i: nat, punch: Ranges)
    requires RangeSet.Valid(rs) && i < |rs| && Apart(punch, rs[i..])
    ensures Apart(punch, BelowCut(rs[i], cut)) && Apart(punch + BelowCut(rs[i], cut), rs[i + 1..])
  {
    assert rs[i..][0] == rs[i];
    var next, rest := punch + BelowCut(rs[i], cut), rs[i + 1..];
    forall k, c | 0 <= k < |next| && 0 <= c < |rest| ensures next[k].End() < rest[c].pos {
      assert rest[c] == rs[i + 1 + c] == rs[i..][c + 1];
    }
  }

  /** One punched range: deallocated in the file, then no longer held. */
  method PunchOne(s: State, r: Rng) returns (s': State)
    requires s.Valid() && 0 <= r.pos && r.size > 0 && Span(r) <= Bytes(s.rs)
    ensures s'.Valid() && s' == s.(fd := s'.fd, rs := s'.rs) && Bytes(s'.rs) == Bytes(s.rs) - Span(r)
    ensures forall b | b !in Span(r) :: At(s'.fd, b) == At(s.fd, b)
    ensures |Bytes(s.rs)| - |Bytes(s'.rs)| == r.size
  {
    var rs' := Remove(s.rs, r);
    s' := s.(fd := seq(|s.fd|, i requires 0 <= i < |s.fd| => if r.Holds(i) then 0 else s.fd[i]), rs := rs');
    CardMinus(Bytes(s.rs), Span(r));
    assert Bytes(s.rs) * Span(r) == Span(r);
    SpanSize(r);
  }

  /** What `gone` covers may have been given up, nothing else has, and the file is intact elsewhere. */
  ghost predicate PunchedWithin(s: State, gone: set<int>, s': State) {
    && s'.Valid() && s' == s.(fd := s'.fd, rs := s'.rs)
    && Bytes(s.rs) - gone <= Bytes(s'.rs) <= Bytes(s.rs)
    && forall b | b !in Bytes(s.rs) || b in Bytes(s'.rs) :: At(s'.fd, b) == At(s.fd, b)
  }

  /** The bytes of the first `i` ranges. */
  ghost predicate Reached(punch: Ranges, i: nat, gone: set<int>) {
    && gone <= Bytes(punch)
    && (forall k | 0 <= k < i && k < |punch| :: Span(punch[k]) <= gone)
    && (forall k | i <= k < |punch| :: Span(punch[k]) !! gone)
  }

  lemma ReachedStart(punch: Ranges)
    ensures Reached(punch, 0, {})
  {}

  lemma ReachedNext(punch: Ranges, i: nat, gone: set<int>)
    requires RangeSet.Valid(punch) && i < |punch| && Reached(punch, i, gone)
    ensures Reached(punch, i + 1, gone + Span(punch[i]))
  {
    EntryBytes(punch, i);
    forall k | i < k < |punch| ensures Span(punch[k]) !! Span(punch[i]) {
      assert forall b | b in Span(punch[k]) && b in Span(punch[i]) :: punch[k].Holds(b) && punch[i].Holds(b);
    }
  }

  lemma ReachedEnd(punch: Ranges, gone: set<int>)
    requires Reached(punch, |punch|, gone)
    ensures gone == Bytes(punch)
  {
    forall b | b in Bytes(punch) ensures b in gone { BytesIff(punch, b); }
  }

  /** The next range is still held whole. */
  lemma PieceHeld(s: State, punch: Ranges, i: nat, gone: set<int>, s': State)
    requires s.Valid() && RangeSet.Valid(punch) && i < |punch| && Bytes(punch) <= Bytes(s.rs)
    requires Reached(punch, i, gone) && PunchedWithin(s, gone, s')
    ensures 0 <= punch[i].pos && Span(punch[i]) <= Bytes(s'.rs)
  {
    EntryBytes(punch, i);
    assert punch[i].Holds(punch[i].pos);
    assert punch[i].pos in Bytes(s.rs);
  }

  /** Rounds a range and punches it, unless nothing is left of it or the call fails. */
  method PunchPiece(s: State, e: Rng, align: int, fails: bool) returns (s': State, size: int)
    requires s.Valid() && align > 0 && e.size > 0 && 0 <= e.pos && Span(e) <= Bytes(s.rs)
    ensures PunchedWithin(s, Span(e), s')
    ensures size <= 0 || fails ==> s' == s
    ensures size > 0 && !fails ==> |Bytes(s.rs)| - |Bytes(s'.rs)| == size
    ensures align == 1 ==> size > 0 && (!fails ==> Bytes(s'.rs) == Bytes(s.rs) - Span(e))
  {
    AlignInside(e, align);
    var r := AlignPunch(e, align);
    if r.size <= 0 || fails { return s, r.size; }
    s' := PunchOne(s, r);
    return s', r.size;
  }

  lemma PunchedJoin(s: State, gone: set<int>, mid: State, more: set<int>, s': State)
    requires PunchedWithin(s, gone, mid) && PunchedWithin(mid, more, s')
    ensures PunchedWithin(s, gone + more, s')
    ensures Bytes(mid.rs) == Bytes(s.rs) - gone && Bytes(s'.rs) == Bytes(mid.rs) - more ==>
              Bytes(s'.rs) == Bytes(s.rs) - (gone + more)
  {}

  /** Punches the ranges in turn and says how many it got through; `punches` calls succeed before one fails. */
  method PunchAll(s: State, punch: Ranges, align: int, punches: nat)
    returns (s': State, freed: int, whole: bool, punched: bool)
    requires s.Valid() && align > 0 && RangeSet.Valid(punch) && Bytes(punch) <= Bytes(s.rs)
    ensures PunchedWithin(s, Bytes(punch), s') && freed == |Bytes(s.rs)| - |Bytes(s'.rs)|
    ensures punches >= |punch| ==> whole
    ensures whole && align == 1 ==> Bytes(s'.rs) == Bytes(s.rs) - Bytes(punch)
    ensures freed >= 0 && (punched <==> freed > 0)
  {
    var i, done := 0, 0;
    ghost var gone: set<int> := {};
    s', freed, punched := s, 0, false;
    ReachedStart(punch);
    while i < |punch|
      invariant done <= i <= |punch| && Reached(punch, i, gone) && PunchedWithin(s, gone, s')
      invariant freed == |Bytes(s.rs)| - |Bytes(s'.rs)| && freed >= 0 && (punched <==> freed > 0)
      invariant align == 1 ==> Bytes(s'.rs) == Bytes(s.rs) - gone
    {
      PieceHeld(s, punch, i, gone, s');
      ReachedNext(punch, i, gone);
      var next, size := PunchPiece(s', punch[i], align, done == punches);
      if size > 0 && done == punches { return s', freed, false, punched; }
      PunchedJoin(s, gone, s', Span(punch[i]), next);
      if size > 0 { freed, done, punched := freed + size, done + 1, true; }
      s', i, gone := next, i + 1, gone + Span(punch[i]);
    }
    ReachedEnd(punch, gone);
    whole := true;
  }

  /**
   punchItem on a live item: everything held below `cut`, rounded inward, is given up.
   The metadata is marked out of date unless a punch failed.
   */
  method PunchedOut(s: State, cut: int, align: int, punches: nat) returns (s': State, freed: int, whole: bool)
    requires s.Valid() && align > 0
    ensures s'.Valid() && s' == s.(fd := s'.fd, rs := s'.rs, dirty := s'.dirty)
    ensures freed == |Bytes(s.rs)| - |Bytes(s'.rs)|
    ensures forall bk :: Punched(s.Content(bk), Bytes(s.rs) - Bytes(s'.rs), s'.Content(bk))
    ensures forall b | b in Bytes(s.rs) && cut <= b :: b in Bytes(s'.rs)
    ensures punches >= |s.rs| ==> whole
    ensures cut > 0 && align == 1 && whole ==> forall b | b in Bytes(s'.rs) :: cut <= b
    ensures s'.dirty == (s.dirty || (whole && freed > 0))
  {
    if cut <= 0 { return s, 0, true; }
    var punch := PunchList(s.rs, cut);
    var punched;
    s', freed, whole, punched := PunchAll(s, punch, align, punches);
    PunchedContent(s, Bytes(punch), s');
    if punched && whole { s' := s'.(dirty := true); }
  }

  lemma PunchedContent(s: State, gone: set<int>, s': State)
    requires PunchedWithin(s, gone, s')
    ensures forall bk :: Punched(s.Content(bk), Bytes(s.rs) - Bytes(s'.rs), s'.Content(bk))
  {
    assert Bytes(s'.rs) == Bytes(s.rs) - (Bytes(s.rs) - Bytes(s'.rs));
  }

  // ----------------------------------------------------------------- load

  /** What the metadata reader lets through. */
  predicate WfMetadata(meta: Metadata) {
    meta.Metadata? ==> forall i | 0 <= i < |meta.ranges| :: meta.ranges[i].pos >= 0 && meta.ranges[i].size > 0
  }

  method InsertAll(rs: Ranges, add: seq<Rng>) returns (out: Ranges)
    requires RangeSet.Valid(rs)
    ensures RangeSet.Valid(out) && Bytes(out) == Bytes(rs) + Bytes(add)
  {
    out := rs;
    ghost var done: set<int> := {};
    var i := 0;
    while i < |add|
      invariant i <= |add| && RangeSet.Valid(out) && Bytes(out) == Bytes(rs) + done
      invariant done + Bytes(add[i..]) == Bytes(add)
    {
      assert add[i..][1..] == add[i + 1..];
      out := Insert(out, add[i]);
      done := done + Span(add[i]);
      i := i + 1;
    }
  }

  lemma {:induction false} BytesNatural(rs: seq<Rng>)
    requires forall i | 0 <= i < |rs| :: rs[i].pos >= 0
    ensures Natural(Bytes(rs))
  {
    forall b | b in Bytes(rs) ensures 0 <= b { BytesIff(rs, b); }
  }

  /** ensureLoaded up to the resize of the data file, which `file` is the content of. */
  method ReadMetadata(s: State, file: seq<Byte>, st: Stat, meta: Metadata) returns (s': State)
    requires s.Valid() && WfMetadata(meta)
    ensures s'.Valid()
    ensures s' == s.(fd := file, size := st.size, fingerprint := st.fingerprint, rs := s'.rs, dirty := s'.dirty)
    ensures Bytes(s'.rs) == LoadedBytes(Bytes(s.rs), st, meta)
    ensures s'.dirty == (s.dirty || !Matches(st, meta))
  {
    s' := s.(fd := file, size := st.size, fingerprint := st.fingerprint);
    if Matches(st, meta) {
      BytesNatural(meta.ranges);
      var rs' := InsertAll(s.rs, meta.ranges);
      rs' := Remove(rs', Rng(st.size, FAR - st.size));
      s' := s'.(rs := rs');
    } else {
      s' := s'.(dirty := true);
    }
  }

  /** Where matching metadata makes a claim, the data file has the backend's bytes. */
  ghost predicate HonestMetadata(file: seq<Byte>, backend: seq<Byte>, st: Stat, meta: Metadata) {
    Matches(st, meta) ==>
      Near(Bytes(meta.ranges)) && forall b | b in Bytes(meta.ranges) && b < st.size :: At(file, b) == At(backend, b)
  }

  /** A load that claims what honest metadata justifies gives a coherent item. */
  lemma LoadCoherent(file: seq<Byte>, backend: seq<Byte>, st: Stat, meta: Metadata, s: State)
    requires WfMetadata(meta) && HonestMetadata(file, backend, st, meta) && st.size == |backend|
    requires Bytes(s.rs) == Justified(st, meta) && s.size == st.size && s.fd == Resized(file, st.size)
    ensures Coherent(s.Content(backend)) && Tracks(s.Content(backend))
  {
    if Matches(st, meta) { BytesNatural(meta.ranges); }
    forall b | b in Bytes(s.rs) ensures 0 <= b < s.size && At(s.fd, b) == At(backend, b) {
      assert b !in Span(Rng(st.size, FAR - st.size)) && !Rng(st.size, FAR - st.size).Holds(b);
    }
  }

  /** Closing a coherent item and opening it again over the same object gives back the same bytes, coherent. */
  lemma ReopenKeeps(s: State, backend: seq<Byte>)
    requires s.Valid() && Coherent(s.Content(backend)) && Tracks(s.Content(backend)) && s.size <= FAR
    ensures var st, meta := Stat(|backend|, s.fingerprint), Metadata(s.fingerprint, s.rs);
            && HonestMetadata(s.fd, backend, st, meta) && Justified(st, meta) == Bytes(s.rs)
  {
    forall b | b in Bytes(s.rs) ensures b !in Span(Rng(|backend|, FAR - |backend|)) {
      assert !Rng(|backend|, FAR - |backend|).Holds(b);
    }
  }
}
