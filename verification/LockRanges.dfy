/**
 Byte-range arithmetic of the NFSv4 lock table (nfs4/ops_lock.go).

 A lock-owner's ranges are a list; their meaning is a map from bytes to
 {none, read, write}.  `Subtract` and `Set` work on the list, and are shown to be
 exactly erase and update of that map, with canonical results.
 */
module LockRanges {

  const MAX_UINT64: nat := 0xFFFF_FFFF_FFFF_FFFF

  /** `end` is exclusive, and 0 when the range runs to end of file. */
  datatype LockRange = LockRange(start: nat, end: nat, toEOF: bool, write: bool) {
    /** The shape every range built by `MakeLockRange` has. */
    predicate Wf() {
      if toEOF then end == 0 else start < end
    }

    predicate Covers(b: nat) {
      start <= b && (toEOF || b < end)
    }
  }

  datatype Mode = Unlocked | ReadLocked | WriteLocked

  datatype RangeResult = RangeOk(range: LockRange) | RangeInval

  /** Decodes the wire form: length 2^64-1 means "to end of file". */
  function MakeLockRange(offset: nat, length: nat, write: bool): (r: RangeResult)
    requires offset <= MAX_UINT64 && length <= MAX_UINT64
    ensures r.RangeInval? <==> length == 0 || (length != MAX_UINT64 && offset + length > MAX_UINT64)
    ensures r.RangeOk? ==> r.range.Wf() && r.range.write == write
    ensures r.RangeOk? ==> forall b: nat :: r.range.Covers(b) <==>
      offset <= b && (length == MAX_UINT64 || b < offset + length)
  {
    if length == 0 then RangeInval
    else if length == MAX_UINT64 then RangeOk(LockRange(offset, 0, true, write))
    else if length > MAX_UINT64 - offset then RangeInval
    else RangeOk(LockRange(offset, offset + length, false, write))
  }

  /** Overlap of two ranges is a common byte. */
  predicate Overlap(a: LockRange, b: LockRange)
    ensures a.Wf() && b.Wf() ==> (Overlap(a, b) <==> exists x: nat :: a.Covers(x) && b.Covers(x))
  {
    var overlap := (a.toEOF || a.end > b.start) && (b.toEOF || b.end > a.start);
    assert a.Wf() && b.Wf() && overlap ==>
        var x := if a.start < b.start then b.start else a.start;
        a.Covers(x) && b.Covers(x);
    overlap
  }

  // ---------- meaning of a list ----------

  ghost predicate Held(rs: seq<LockRange>, b: nat, write: bool) {
    exists i :: 0 <= i < |rs| && rs[i].Covers(b) && rs[i].write == write
  }

  ghost function ModeAt(rs: seq<LockRange>, b: nat): Mode {
    if Held(rs, b, true) then WriteLocked
    else if Held(rs, b, false) then ReadLocked
    else Unlocked
  }

  ghost predicate AllWf(rs: seq<LockRange>) {
    forall i :: 0 <= i < |rs| ==> rs[i].Wf()
  }

  ghost predicate Disjoint(rs: seq<LockRange>) {
    forall i, j :: 0 <= i < j < |rs| ==> !Overlap(rs[i], rs[j])
  }

  ghost predicate Before(a: LockRange, b: LockRange) {
    !a.toEOF && a.end <= b.start
  }

  ghost predicate Ordered(rs: seq<LockRange>) {
    forall i, j :: 0 <= i < j < |rs| ==> Before(rs[i], rs[j])
  }

  /** Sorted, non-overlapping, and adjacent ranges of one type merged. */
  ghost predicate Canonical(rs: seq<LockRange>) {
    && AllWf(rs)
    && Ordered(rs)
    && forall i :: 0 < i < |rs| ==> rs[i-1].end == rs[i].start ==> rs[i-1].write != rs[i].write
  }

  lemma HeldAppend(rs: seq<LockRange>, r: LockRange)
    ensures forall b: nat, w :: Held(rs + [r], b, w) <==> Held(rs, b, w) || (r.Covers(b) && r.write == w)
  {
    forall b: nat, w
      ensures Held(rs + [r], b, w) <==> Held(rs, b, w) || (r.Covers(b) && r.write == w)
    {
      if Held(rs, b, w) {
        var i :| 0 <= i < |rs| && rs[i].Covers(b) && rs[i].write == w;
        assert (rs + [r])[i] == rs[i];
      }
      if r.Covers(b) && r.write == w {
        assert (rs + [r])[|rs|] == r;
      }
    }
  }

  // ---------- sorting ----------

  ghost predicate SortedByStart(rs: seq<LockRange>) {
    forall i, j :: 0 <= i < j < |rs| ==> rs[i].start <= rs[j].start
  }

  /** The library sort by `start`; for disjoint ranges the starts are distinct. */
  function InsertByStart(r: LockRange, rs: seq<LockRange>): (out: seq<LockRange>)
    ensures forall x :: x in out <==> x in rs || x == r
  {
    if rs == [] then [r]
    else if r.start <= rs[0].start then [r] + rs
    else
      assert rs == [rs[0]] + rs[1..];
      [rs[0]] + InsertByStart(r, rs[1..])
  }

  lemma InsertSorted(r: LockRange, rs: seq<LockRange>)
    requires SortedByStart(rs)
    ensures SortedByStart(InsertByStart(r, rs))
  {
    if rs != [] && !(r.start <= rs[0].start) {
      InsertSorted(r, rs[1..]);
      var tail := InsertByStart(r, rs[1..]);
      forall i | 0 <= i < |tail| ensures rs[0].start <= tail[i].start {
        assert tail[i] in rs[1..] || tail[i] == r;
      }
    }
  }

  function SortByStart(rs: seq<LockRange>): (out: seq<LockRange>)
    ensures forall x :: x in out <==> x in rs
    ensures SortedByStart(out)
  {
    if rs == [] then []
    else
      assert rs == [rs[0]] + rs[1..];
      InsertSorted(rs[0], SortByStart(rs[1..]));
      InsertByStart(rs[0], SortByStart(rs[1..]))
  }

  lemma InsertKeepsDisjoint(r: LockRange, rs: seq<LockRange>)
    requires Disjoint(rs)
    requires forall i :: 0 <= i < |rs| ==> !Overlap(r, rs[i]) && !Overlap(rs[i], r)
    ensures Disjoint(InsertByStart(r, rs))
  {
    if rs != [] && !(r.start <= rs[0].start) {
      InsertKeepsDisjoint(r, rs[1..]);
      var tail := InsertByStart(r, rs[1..]);
      forall x | x in tail ensures !Overlap(rs[0], x) {
        if x != r { assert x in rs[1..]; }
      }
    }
  }

  lemma SortKeepsDisjoint(rs: seq<LockRange>)
    requires Disjoint(rs)
    ensures Disjoint(SortByStart(rs))
  {
    if rs != [] {
      var tail := SortByStart(rs[1..]);
      SortKeepsDisjoint(rs[1..]);
      forall i | 0 <= i < |tail| ensures !Overlap(rs[0], tail[i]) && !Overlap(tail[i], rs[0]) {
        assert tail[i] in rs[1..];
      }
      InsertKeepsDisjoint(rs[0], tail);
    }
  }

  lemma SortKeepsHeld(rs: seq<LockRange>)
    ensures AllWf(rs) ==> AllWf(SortByStart(rs))
    ensures forall b: nat, w :: Held(SortByStart(rs), b, w) <==> Held(rs, b, w)
  {
    var out := SortByStart(rs);
    assert forall i :: 0 <= i < |out| ==> out[i] in rs;
    forall b: nat, w ensures Held(out, b, w) <==> Held(rs, b, w) {
      if Held(out, b, w) {
        var i :| 0 <= i < |out| && out[i].Covers(b) && out[i].write == w;
        assert out[i] in rs;
      }
      if Held(rs, b, w) {
        var i :| 0 <= i < |rs| && rs[i].Covers(b) && rs[i].write == w;
        assert rs[i] in out;
      }
    }
  }

  lemma SortedDisjointIsOrdered(rs: seq<LockRange>)
    requires AllWf(rs) && Disjoint(rs)
    requires SortedByStart(rs)
    ensures Ordered(rs)
  {
    forall i, j | 0 <= i < j < |rs| ensures Before(rs[i], rs[j]) {
      assert !Overlap(rs[i], rs[j]);
    }
  }

  // ---------- the list operations ----------

  /** One round of the merge loop: `r` extends the last range or is appended. */
  function MergeLast(out: seq<LockRange>, r: LockRange): (res: seq<LockRange>)
    requires Canonical(out) && r.Wf()
    requires out != [] ==> Before(out[|out|-1], r)
    ensures Canonical(res)
    ensures res != [] && res[|res|-1].toEOF == r.toEOF && res[|res|-1].end == r.end
    ensures forall b: nat, w :: Held(res, b, w) <==> Held(out, b, w) || (r.Covers(b) && r.write == w)
  {
    HeldAppend(out, r);
    if out == [] then
      assert out + [r] == [r];
      [r]
    else
      var init, last := out[..|out|-1], out[|out|-1];
      if last.write == r.write && (last.toEOF || last.end >= r.start) then
        var merged := if r.toEOF then last.(toEOF := true, end := 0)
                      else if !last.toEOF && r.end > last.end then last.(end := r.end)
                      else last;
        HeldAppend(init, last);
        HeldAppend(init, merged);
        assert out == init + [last];
        init + [merged]
      else
        AppendOrdered(out, r);
        out + [r]
  }

  lemma AppendOrdered(out: seq<LockRange>, r: LockRange)
    requires AllWf(out) && Ordered(out) && r.Wf() && out != [] && Before(out[|out|-1], r)
    ensures AllWf(out + [r]) && Ordered(out + [r])
  {
    forall i | 0 <= i < |out| ensures Before(out[i], r) {
      if i < |out|-1 { assert Before(out[i], out[|out|-1]); }
    }
  }

  /** The merge loop over an ordered list. */
  function MergeAll(sorted: seq<LockRange>): (out: seq<LockRange>)
    requires AllWf(sorted) && Ordered(sorted)
    ensures Canonical(out)
    ensures sorted != [] ==> out != [] && out[|out|-1].toEOF == sorted[|sorted|-1].toEOF
                             && out[|out|-1].end == sorted[|sorted|-1].end
    ensures sorted == [] ==> out == []
    ensures forall b: nat, w :: Held(out, b, w) <==> Held(sorted, b, w)
  {
    if sorted == [] then []
    else
      var init, last := sorted[..|sorted|-1], sorted[|sorted|-1];
      HeldAppend(init, last);
      assert sorted == init + [last];
      assert init != [] ==> Before(sorted[|sorted|-2], last);
      MergeLast(MergeAll(init), last)
  }

  /** The canonical form of a disjoint list. */
  function Canonicalized(ranges: seq<LockRange>): (out: seq<LockRange>)
    requires AllWf(ranges) && Disjoint(ranges)
    ensures Canonical(out)
    ensures forall b: nat, w :: Held(out, b, w) <==> Held(ranges, b, w)
  {
    SortKeepsDisjoint(ranges);
    SortKeepsHeld(ranges);
    SortedDisjointIsOrdered(SortByStart(ranges));
    MergeAll(SortByStart(ranges))
  }

  lemma MergeStep(sorted: seq<LockRange>, k: nat)
    requires AllWf(sorted) && Ordered(sorted) && k < |sorted|
    ensures var out := MergeAll(sorted[..k]);
            && (out != [] ==> Before(out[|out|-1], sorted[k]))
            && MergeAll(sorted[..k+1]) == MergeLast(out, sorted[k])
  {
    assert sorted[..k+1][..k] == sorted[..k];
    if k > 0 { assert Before(sorted[k-1], sorted[k]); }
  }

  /** Sorts, then merges touching ranges of one type into the output's last range. */
  method CanonicalRanges(ranges: seq<LockRange>) returns (out: seq<LockRange>)
    requires AllWf(ranges) && Disjoint(ranges)
    ensures out == Canonicalized(ranges)
  {
    var sorted := SortByStart(ranges);
    SortKeepsDisjoint(ranges);
    SortKeepsHeld(ranges);
    SortedDisjointIsOrdered(sorted);
    out := [];
    for k := 0 to |sorted|
      invariant out == MergeAll(sorted[..k])
    {
      MergeStep(sorted, k);
      out := MergeLast(out, sorted[k]);
    }
    assert sorted[..|sorted|] == sorted;
  }

  /** What is left of one range after a cut: at most a left and a right piece. */
  function Pieces(r: LockRange, cut: LockRange): (out: seq<LockRange>)
    requires r.Wf() && cut.Wf()
    ensures AllWf(out) && Disjoint(out)
    ensures forall b: nat, w :: Held(out, b, w) <==> r.Covers(b) && r.write == w && !cut.Covers(b)
  {
    if !Overlap(r, cut) then
      assert forall b: nat :: r.Covers(b) ==> !cut.Covers(b);
      assert [r][0] == r;
      [r]
    else
      var left := LockRange(r.start, cut.start, false, r.write);
      var right := LockRange(cut.end, r.end, r.toEOF, r.write);
      PiecesHeld(r, cut, left, right);
      (if r.start < cut.start then [left] else []) +
      (if !cut.toEOF && (r.toEOF || r.end > cut.end) then [right] else [])
  }

  lemma PiecesHeld(r: LockRange, cut: LockRange, left: LockRange, right: LockRange)
    requires r.Wf() && cut.Wf() && Overlap(r, cut)
    requires left == LockRange(r.start, cut.start, false, r.write)
    requires right == LockRange(cut.end, r.end, r.toEOF, r.write)
    ensures var out := (if r.start < cut.start then [left] else []) +
                       (if !cut.toEOF && (r.toEOF || r.end > cut.end) then [right] else []);
            && AllWf(out) && Disjoint(out)
            && forall b: nat, w :: Held(out, b, w) <==> r.Covers(b) && r.write == w && !cut.Covers(b)
  {
    HeldAppend([], left);
    HeldAppend([], right);
    HeldAppend([left], right);
    assert [] + [left] == [left] && [] + [right] == [right];
    assert [left] + [] == [left];
    if r.start < cut.start {
      if !cut.toEOF && (r.toEOF || r.end > cut.end) {
        assert [left] + [right] == [left, right];
      }
    }
  }

  lemma HeldConcat(a: seq<LockRange>, c: seq<LockRange>)
    ensures forall b: nat, w :: Held(a + c, b, w) <==> Held(a, b, w) || Held(c, b, w)
  {
    if c == [] {
      assert a + c == a;
    } else {
      var init, last := c[..|c|-1], c[|c|-1];
      HeldConcat(a, init);
      HeldAppend(init, last);
      HeldAppend(a + init, last);
      assert c == init + [last] && a + c == a + init + [last];
    }
  }

  /** Two lists that never hold a common byte are disjoint when concatenated. */
  lemma ConcatDisjoint(a: seq<LockRange>, c: seq<LockRange>)
    requires AllWf(a) && AllWf(c) && Disjoint(a) && Disjoint(c)
    requires forall b: nat, w, w' :: Held(a, b, w) ==> !Held(c, b, w')
    ensures AllWf(a + c) && Disjoint(a + c)
  {
    forall i, j | 0 <= i < j < |a + c| ensures !Overlap((a + c)[i], (a + c)[j]) {
      if i < |a| <= j && Overlap(a[i], c[j - |a|]) {
        var x: nat :| a[i].Covers(x) && c[j - |a|].Covers(x);
        assert Held(a, x, a[i].write) && Held(c, x, c[j - |a|].write);
        assert false;
      }
    }
  }

  lemma DisjointIsFunctional(rs: seq<LockRange>, b: nat)
    requires AllWf(rs) && Disjoint(rs)
    ensures !(Held(rs, b, true) && Held(rs, b, false))
  {
    forall i, j | 0 <= i < |rs| && 0 <= j < |rs| && i != j
      ensures !(rs[i].Covers(b) && rs[j].Covers(b))
    {
      assert if i < j then !Overlap(rs[i], rs[j]) else !Overlap(rs[j], rs[i]);
    }
  }

  lemma CanonicalIsDisjoint(rs: seq<LockRange>)
    requires Canonical(rs)
    ensures Disjoint(rs)
  {
    forall i, j | 0 <= i < j < |rs| ensures !Overlap(rs[i], rs[j]) {
      assert Before(rs[i], rs[j]);
    }
  }

  /** The pieces of every held range outside `cut`. */
  function CutAll(held: seq<LockRange>, cut: LockRange): (out: seq<LockRange>)
    requires AllWf(held) && Ordered(held) && cut.Wf()
    ensures AllWf(out) && Disjoint(out)
    ensures forall b: nat, w :: Held(out, b, w) <==> Held(held, b, w) && !cut.Covers(b)
  {
    if held == [] then []
    else
      var init, last := held[..|held|-1], held[|held|-1];
      assert held == init + [last];
      HeldAppend(init, last);
      HeldConcat(CutAll(init, cut), Pieces(last, cut));
      assert forall b: nat, w :: Held(init, b, w) ==> !last.Covers(b);
      ConcatDisjoint(CutAll(init, cut), Pieces(last, cut));
      CutAll(init, cut) + Pieces(last, cut)
  }

  /** `held` with the bytes of `cut` erased. */
  function Erased(held: seq<LockRange>, cut: LockRange): (out: seq<LockRange>)
    requires Canonical(held) && cut.Wf()
    ensures Canonical(out)
    ensures forall b: nat :: ModeAt(out, b) == if cut.Covers(b) then Unlocked else ModeAt(held, b)
  {
    Canonicalized(CutAll(held, cut))
  }

  /** `held` with the bytes of `add` set to its type. */
  function Updated(held: seq<LockRange>, add: LockRange): (out: seq<LockRange>)
    requires Canonical(held) && add.Wf()
    ensures Canonical(out)
    ensures forall b: nat ::
      ModeAt(out, b) == if !add.Covers(b) then ModeAt(held, b) else if add.write then WriteLocked else ReadLocked
  {
    SetDisjoint(held, add);
    Canonicalized(Erased(held, add) + [add])
  }

  lemma SetDisjoint(held: seq<LockRange>, add: LockRange)
    requires Canonical(held) && add.Wf()
    ensures AllWf(Erased(held, add) + [add]) && Disjoint(Erased(held, add) + [add])
    ensures forall b: nat, w ::
      Held(Erased(held, add) + [add], b, w) <==> if add.Covers(b) then w == add.write else Held(held, b, w)
  {
    var rest := Erased(held, add);
    CanonicalIsDisjoint(rest);
    CanonicalIsDisjoint(held);
    forall b: nat, w ensures Held(rest, b, w) <==> Held(held, b, w) && !add.Covers(b) {
      DisjointIsFunctional(rest, b);
      DisjointIsFunctional(held, b);
      assert ModeAt(rest, b) == if add.Covers(b) then Unlocked else ModeAt(held, b);
    }
    HeldAppend([], add);
    assert [] + [add] == [add];
    ConcatDisjoint(rest, [add]);
    HeldAppend(rest, add);
  }

  /** Erases `cut`, whatever the held types. */
  method SubtractRange(held: seq<LockRange>, cut: LockRange) returns (out: seq<LockRange>)
    requires Canonical(held) && cut.Wf()
    ensures out == Erased(held, cut)
  {
    var pieces := [];
    for k := 0 to |held|
      invariant pieces == CutAll(held[..k], cut)
    {
      var r := held[k];
      assert held[..k+1][..k] == held[..k];
      if !Overlap(r, cut) {
        pieces := pieces + [r];
      } else {
        var left := if r.start < cut.start then [LockRange(r.start, cut.start, false, r.write)] else [];
        var right := if !cut.toEOF && (r.toEOF || r.end > cut.end)
                     then [LockRange(cut.end, r.end, r.toEOF, r.write)] else [];
        pieces := pieces + (left + right);
      }
    }
    assert held[..|held|] == held;
    out := CanonicalRanges(pieces);
  }

  /** Erases the requested bytes, then adds them with the requested type. */
  method SetLockRange(held: seq<LockRange>, add: LockRange) returns (out: seq<LockRange>)
    requires Canonical(held) && add.Wf()
    ensures out == Updated(held, add)
  {
    out := SubtractRange(held, add);
    SetDisjoint(held, add);
    out := CanonicalRanges(out + [add]);
  }

  // ---------- canonical lists are unique ----------

  lemma CanonicalTail(rs: seq<LockRange>)
    requires Canonical(rs) && rs != []
    ensures Canonical(rs[1..])
    ensures forall b: nat, w :: Held(rs[1..], b, w) <==> Held(rs, b, w) && !rs[0].Covers(b)
  {
    forall b: nat, w ensures Held(rs[1..], b, w) <==> Held(rs, b, w) && !rs[0].Covers(b) {
      if Held(rs[1..], b, w) {
        var i :| 0 <= i < |rs[1..]| && rs[1..][i].Covers(b) && rs[1..][i].write == w;
        assert rs[i+1].Covers(b) && Before(rs[0], rs[i+1]);
      }
      if Held(rs, b, w) && !rs[0].Covers(b) {
        var i :| 0 <= i < |rs| && rs[i].Covers(b) && rs[i].write == w;
        assert rs[1..][i-1] == rs[i];
      }
    }
  }

  /** A canonical list's first range is a maximal run of its first held byte's mode. */
  lemma HeadIsMaximalRun(rs: seq<LockRange>)
    requires Canonical(rs) && rs != []
    ensures forall b: nat :: b < rs[0].start ==> ModeAt(rs, b) == Unlocked
    ensures forall b: nat :: rs[0].Covers(b) ==> ModeAt(rs, b) == if rs[0].write then WriteLocked else ReadLocked
    ensures !rs[0].toEOF ==> ModeAt(rs, rs[0].end) != if rs[0].write then WriteLocked else ReadLocked
  {
    CanonicalTail(rs);
    CanonicalIsDisjoint(rs);
    forall b: nat | b < rs[0].start ensures ModeAt(rs, b) == Unlocked {
      forall i | 0 <= i < |rs| ensures !rs[i].Covers(b) {
        if i > 0 { assert Before(rs[0], rs[i]); }
      }
    }
    forall b: nat | rs[0].Covers(b)
      ensures ModeAt(rs, b) == if rs[0].write then WriteLocked else ReadLocked
    {
      DisjointIsFunctional(rs, b);
      assert Held(rs, b, rs[0].write);
    }
    if !rs[0].toEOF {
      forall i | 0 <= i < |rs| ensures !(rs[i].Covers(rs[0].end) && rs[i].write == rs[0].write) {
        if i > 1 { assert Before(rs[0], rs[1]) && Before(rs[1], rs[i]) && rs[1].Wf(); }
      }
    }
  }

  /** Two canonical lists with one pointwise meaning are the same list. */
  lemma {:induction false} CanonicalUnique(a: seq<LockRange>, c: seq<LockRange>)
    requires Canonical(a) && Canonical(c)
    requires forall b: nat :: ModeAt(a, b) == ModeAt(c, b)
    ensures a == c
  {
    EmptyMeansUnlocked(a);
    EmptyMeansUnlocked(c);
    if a != [] {
      HeadsAgree(a, c);
      CanonicalTail(a);
      CanonicalTail(c);
      forall b: nat ensures ModeAt(a[1..], b) == ModeAt(c[1..], b) {
        assert ModeAt(a, b) == ModeAt(c, b);
      }
      CanonicalUnique(a[1..], c[1..]);
      assert a == [a[0]] + a[1..] && c == [c[0]] + c[1..];
    }
  }

  lemma EmptyMeansUnlocked(rs: seq<LockRange>)
    requires Canonical(rs)
    ensures rs == [] <==> forall b: nat :: ModeAt(rs, b) == Unlocked
  {
    if rs != [] {
      HeadIsMaximalRun(rs);
      assert rs[0].Covers(rs[0].start);
    }
  }

  lemma HeadsAgree(a: seq<LockRange>, c: seq<LockRange>)
    requires Canonical(a) && Canonical(c) && a != [] && c != []
    requires forall b: nat :: ModeAt(a, b) == ModeAt(c, b)
    ensures a[0] == c[0]
  {
    HeadIsMaximalRun(a);
    HeadIsMaximalRun(c);
    assert a[0].Covers(a[0].start) && c[0].Covers(c[0].start);
    assert ModeAt(a, a[0].start) == ModeAt(c, a[0].start);
    assert ModeAt(a, c[0].start) == ModeAt(c, c[0].start);
    assert a[0].start == c[0].start && a[0].write == c[0].write;
    if !a[0].toEOF { assert ModeAt(a, a[0].end) == ModeAt(c, a[0].end); }
    if !c[0].toEOF { assert ModeAt(a, c[0].end) == ModeAt(c, c[0].end); }
  }
}
