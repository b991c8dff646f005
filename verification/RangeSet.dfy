/**
 The sorted, coalesced interval list of the content cache (facetcache/ranges.go),
 proved to be a plain set of byte positions.

 Positions are unbounded integers: overflow of a 64-bit end is not modelled.
 */
module RangeSet {
  datatype Rng = Rng(pos: int, size: int) {
    function End(): int { pos + size }
    predicate Holds(b: int) { pos <= b < pos + size }
  }

  type Ranges = seq<Rng>

  function Span(r: Rng): (bs: set<int>)
    ensures forall b :: b in bs <==> r.Holds(b)
  {
    set b | r.pos <= b < r.End() && r.Holds(b)
  }

  /** The bytes a list of entries stands for. */
  function Bytes(s: Ranges): set<int> {
    if s == [] then {} else Span(s[0]) + Bytes(s[1..])
  }

  /** Entries are non-empty, in order, and never touch. */
  ghost predicate Valid(s: Ranges) {
    && (forall i | 0 <= i < |s| :: s[i].size > 0)
    && (forall i, j | 0 <= i < j < |s| :: s[i].End() < s[j].pos)
  }

  lemma {:induction false} BytesIff(s: Ranges, b: int)
    ensures b in Bytes(s) <==> exists i :: 0 <= i < |s| && b in Span(s[i])
  {
    if s != [] {
      BytesIff(s[1..], b);
      assert forall i | 1 <= i < |s| :: s[i] == s[1..][i - 1];
      if b in Bytes(s[1..]) {
        var i :| 0 <= i < |s[1..]| && b in Span(s[1..][i]);
        assert b in Span(s[i + 1]);
      }
    }
  }

  lemma EntryBytes(s: Ranges, i: nat)
    requires i < |s|
    ensures Span(s[i]) <= Bytes(s)
  {
    forall b | b in Span(s[i]) ensures b in Bytes(s) { BytesIff(s, b); }
  }

  lemma {:induction false} BytesConcat(a: Ranges, b: Ranges)
    ensures Bytes(a + b) == Bytes(a) + Bytes(b)
  {
    if a == [] {
      assert a + b == b;
    } else {
      assert (a + b)[1..] == a[1..] + b;
      BytesConcat(a[1..], b);
    }
  }

  /** The first entry whose end is after `pos`. */
  function Search(s: Ranges, pos: int): (i: nat)
    ensures i <= |s|
    ensures forall k | 0 <= k < i :: s[k].End() <= pos
    ensures i < |s| ==> s[i].End() > pos
  {
    if s == [] || s[0].End() > pos then 0 else 1 + Search(s[1..], pos)
  }

  /** What the search finds decides membership of `pos`. */
  lemma SearchDecides(s: Ranges, pos: int)
    requires Valid(s)
    ensures var i := Search(s, pos); pos in Bytes(s) <==> i < |s| && s[i].pos <= pos
    ensures forall b | pos <= b && b in Bytes(s) :: Search(s, pos) < |s| && s[Search(s, pos)].pos <= b
  {
    var i := Search(s, pos);
    BytesIff(s, pos);
    forall b | pos <= b && b in Bytes(s) ensures i < |s| && s[i].pos <= b {
      BytesIff(s, b);
    }
  }

  /** Covered means covered by a single entry. */
  lemma {:induction false} IntervalInOneEntry(s: Ranges, r: Rng, i: nat)
    requires Valid(s) && i < |s| && r.pos in Span(s[i])
    ensures Span(r) <= Bytes(s) <==> r.End() <= s[i].End()
  {
    EntryBytes(s, i);
    if s[i].End() < r.End() {
      BytesIff(s, s[i].End());
      assert s[i].End() in Span(r) && s[i].End() !in Bytes(s);
    }
  }

  function Present(s: Ranges, r: Rng): bool {
    if r.size <= 0 then true
    else var i := Search(s, r.pos); i < |s| && s[i].pos <= r.pos && s[i].End() >= r.End()
  }

  lemma PresentExact(s: Ranges, r: Rng)
    requires Valid(s)
    ensures Present(s, r) <==> Span(r) <= Bytes(s)
  {
    if r.size > 0 {
      var i := Search(s, r.pos);
      SearchDecides(s, r.pos);
      assert r.Holds(r.pos);
      if i < |s| && s[i].pos <= r.pos { IntervalInOneEntry(s, r, i); }
    }
  }

  function FindMissing(s: Ranges, r: Rng): Rng {
    if r.size <= 0 then Rng(r.pos, 0)
    else
      var i := Search(s, r.pos);
      if i < |s| && s[i].pos <= r.pos then
        var covered := s[i].End() - r.pos;
        if covered >= r.size then Rng(r.End(), 0) else Rng(r.pos + covered, r.size - covered)
      else r
  }

  /** The covered prefix is cut off exactly: what is cut is covered, what is left starts uncovered. */
  lemma FindMissingExact(s: Ranges, r: Rng)
    requires Valid(s) && r.size > 0
    ensures var m := FindMissing(s, r);
            && m.size >= 0 && m.End() == r.End() && r.pos <= m.pos
            && Span(Rng(r.pos, m.pos - r.pos)) <= Bytes(s)
            && (m.size > 0 ==> m.pos !in Bytes(s))
  {
    var i := Search(s, r.pos);
    SearchDecides(s, r.pos);
    if i < |s| && s[i].pos <= r.pos {
      EntryBytes(s, i);
      BytesIff(s, s[i].End());
    }
  }

  /** Two lists kept in this form are equal as soon as they cover the same bytes. */
  lemma {:induction false} ValidUnique(s: Ranges, t: Ranges)
    requires Valid(s) && Valid(t) && Bytes(s) == Bytes(t)
    ensures s == t
    decreases |s|
  {
    if s != [] && t != [] {
      FirstByte(s, t);
      FirstByte(t, s);
      FirstEnd(s, t);
      FirstEnd(t, s);
      assert s[0] == t[0];
      TailBytes(s);
      TailBytes(t);
      ValidUnique(s[1..], t[1..]);
    } else if s != [] {
      SomeByte(s);
    } else if t != [] {
      SomeByte(t);
    }
  }

  lemma SomeByte(s: Ranges)
    requires Valid(s) && s != []
    ensures s[0].pos in Span(s[0]) && s[0].pos in Bytes(s)
  {
    assert s[0].Holds(s[0].pos);
  }

  lemma FirstByte(s: Ranges, t: Ranges)
    requires Valid(s) && Valid(t) && Bytes(s) == Bytes(t) && s != [] && t != []
    ensures s[0].pos <= t[0].pos
  {
    SomeByte(t);
    BytesIff(s, t[0].pos);
  }

  lemma FirstEnd(s: Ranges, t: Ranges)
    requires Valid(s) && Valid(t) && Bytes(s) == Bytes(t) && s != [] && t != [] && s[0].pos == t[0].pos
    ensures s[0].End() <= t[0].End()
  {
    EntryBytes(s, 0);
    SomeByte(t);
    IntervalInOneEntry(t, s[0], 0);
  }

  lemma TailBytes(s: Ranges)
    requires Valid(s) && s != []
    ensures Bytes(s[1..]) == Bytes(s) - Span(s[0])
  {
    forall b | b in Bytes(s[1..]) ensures b !in Span(s[0]) {
      BytesIff(s[1..], b);
    }
  }

  // --------------------------------------------------------------- insert

  /** `Search`, but the entry may end exactly at `pos`. */
  function SearchTouching(s: Ranges, pos: int): (i: nat)
    ensures i <= |s|
    ensures forall k | 0 <= k < i :: s[k].End() < pos
    ensures i < |s| ==> s[i].End() >= pos
  {
    if s == [] || s[0].End() >= pos then 0 else 1 + SearchTouching(s[1..], pos)
  }

  function Hull(r: Rng, a: Rng, z: Rng): Rng {
    var pos := if r.pos < a.pos then r.pos else a.pos;
    var end := if r.End() > z.End() then r.End() else z.End();
    Rng(pos, end - pos)
  }

  lemma HullBytes(s: Ranges, r: Rng, i: nat, j: nat)
    requires Valid(s) && i < j <= |s| && r.size > 0
    requires s[i].End() >= r.pos && s[j - 1].pos <= r.End()
    ensures Span(Hull(r, s[i], s[j - 1])) == Bytes(s[i..j]) + Span(r)
  {
    var h := Hull(r, s[i], s[j - 1]);
    forall b ensures b in Span(h) <==> b in Bytes(s[i..j]) || b in Span(r) {
      BytesIff(s[i..j], b);
      assert s[i..j][0] == s[i] && s[i..j][j - i - 1] == s[j - 1];
      assert b in Span(h) <==> h.Holds(b);
      assert b in Span(r) <==> r.Holds(b);
      if h.Holds(b) && b < r.pos { assert b in Span(s[i..j][0]); }
      if h.Holds(b) && b >= r.End() { assert b in Span(s[i..j][j - i - 1]); }
      if b in Bytes(s[i..j]) {
        var k :| 0 <= k < j - i && b in Span(s[i..j][k]);
        assert s[i..j][k] == s[i + k];
        assert s[i].pos <= s[i + k].pos && s[i + k].End() <= s[j - 1].End();
      }
    }
  }

  lemma Split3(s: Ranges, i: nat, j: nat)
    requires i <= j <= |s|
    ensures Bytes(s) == Bytes(s[..i]) + Bytes(s[i..j]) + Bytes(s[j..])
  {
    assert s == s[..i] + s[i..j] + s[j..];
    Concat3(s[..i], s[i..j], s[j..]);
  }

  lemma Concat3(a: Ranges, b: Ranges, c: Ranges)
    ensures Bytes(a + b + c) == Bytes(a) + Bytes(b) + Bytes(c)
  {
    BytesConcat(a + b, c);
    BytesConcat(a, b);
  }

  lemma Split2(s: Ranges, i: nat)
    requires i <= |s|
    ensures Bytes(s) == Bytes(s[..i]) + Bytes(s[i..])
  {
    assert s == s[..i] + s[i..];
    BytesConcat(s[..i], s[i..]);
  }

  lemma BytesOne(r: Rng)
    ensures Bytes([r]) == Span(r)
  {
    assert [r][1..] == [];
  }

  lemma BytesAround(a: Ranges, r: Rng, z: Ranges)
    ensures Bytes(a + [r] + z) == Bytes(a) + Span(r) + Bytes(z)
  {
    Concat3(a, [r], z);
    BytesOne(r);
  }

  /** Union. */
  method Insert(s: Ranges, r: Rng) returns (out: Ranges)
    requires Valid(s)
    ensures Valid(out) && Bytes(out) == Bytes(s) + Span(r)
  {
    if r.size <= 0 { return s; }
    var i := SearchTouching(s, r.pos);
    var j := i;
    while j < |s| && s[j].pos <= r.End()
      invariant i <= j <= |s|
      invariant i < j ==> s[j - 1].pos <= r.End()
    {
      j := j + 1;
    }
    out := s[..i] + [Merged(s, r, i, j)] + s[j..];
    InsertBytes(s, r, i, j);
    InsertValid(s, r, i, j);
  }

  /** `r` grown over the entries it touches, which are those from `i` up to `j`. */
  function Merged(s: Ranges, r: Rng, i: nat, j: nat): Rng
    requires i <= j <= |s|
  {
    if i == j then r else Hull(r, s[i], s[j - 1])
  }

  lemma InsertBytes(s: Ranges, r: Rng, i: nat, j: nat)
    requires Valid(s) && i <= j <= |s| && r.size > 0
    requires i < j ==> s[i].End() >= r.pos && s[j - 1].pos <= r.End()
    ensures Bytes(s[..i] + [Merged(s, r, i, j)] + s[j..]) == Bytes(s) + Span(r)
  {
    Split3(s, i, j);
    BytesAround(s[..i], Merged(s, r, i, j), s[j..]);
    if i < j {
      HullBytes(s, r, i, j);
    } else {
      assert s[i..j] == [];
    }
  }

  lemma InsertValid(s: Ranges, r: Rng, i: nat, j: nat)
    requires Valid(s) && i <= j <= |s| && r.size > 0
    requires forall k | 0 <= k < i :: s[k].End() < r.pos
    requires i < j ==> s[i].End() >= r.pos && s[j - 1].pos <= r.End()
    requires j < |s| ==> s[j].pos > r.End()
    ensures Valid(s[..i] + [Merged(s, r, i, j)] + s[j..])
  {
    var m := Merged(s, r, i, j);
    assert forall k | 0 <= k < i :: s[k].End() < m.pos;
    assert forall k | j <= k < |s| :: m.End() < s[k].pos;
    ValidAround(s, i, j, m);
  }

  lemma ValidAround(s: Ranges, i: nat, j: nat, m: Rng)
    requires Valid(s) && i <= j <= |s| && m.size > 0
    requires forall k | 0 <= k < i :: s[k].End() < m.pos
    requires forall k | j <= k < |s| :: m.End() < s[k].pos
    ensures Valid(s[..i] + [m] + s[j..])
  {}

  // --------------------------------------------------------------- remove

  function Left(e: Rng, r: Rng): Ranges {
    if e.pos < r.pos then [Rng(e.pos, r.pos - e.pos)] else []
  }

  function Right(e: Rng, r: Rng): Ranges {
    if e.End() > r.End() then [Rng(r.End(), e.End() - r.End())] else []
  }

  /** What is left of one entry. */
  function Cut(e: Rng, r: Rng): Ranges { Left(e, r) + Right(e, r) }

  lemma CutBytes(e: Rng, r: Rng)
    requires e.size > 0 && r.size > 0 && e.pos < r.End() && r.pos < e.End()
    ensures Bytes(Cut(e, r)) == Span(e) - Span(r) && Valid(Cut(e, r))
    ensures forall c | c in Cut(e, r) :: e.pos <= c.pos && c.End() <= e.End()
  {
    BytesConcat(Left(e, r), Right(e, r));
    forall b ensures b in Bytes(Left(e, r)) <==> e.Holds(b) && b < r.pos {
      if e.pos < r.pos {
        var a := Rng(e.pos, r.pos - e.pos);
        BytesOne(a);
        assert b in Span(a) <==> a.Holds(b);
      }
    }
    forall b ensures b in Bytes(Right(e, r)) <==> e.Holds(b) && b >= r.End() {
      if e.End() > r.End() {
        var z := Rng(r.End(), e.End() - r.End());
        BytesOne(z);
        assert b in Span(z) <==> z.Holds(b);
      }
    }
  }

  /** Everything in `out` ends before everything in `s` begins, with a gap. */
  ghost predicate Apart(out: Ranges, s: Ranges) {
    forall i, k | 0 <= i < |out| && 0 <= k < |s| :: out[i].End() < s[k].pos
  }

  lemma ValidConcat(a: Ranges, b: Ranges)
    requires Valid(a) && Valid(b) && Apart(a, b)
    ensures Valid(a + b)
  {}

  /** `out` is what is left of the first `i` entries. */
  ghost predicate CutSoFar(s: Ranges, r: Rng, i: nat, out: Ranges)
    requires i <= |s|
  {
    Valid(out) && Apart(out, s[i..]) && Bytes(out) == Bytes(s[..i]) - Span(r)
  }

  /** Difference. */
  method Remove(s: Ranges, r: Rng) returns (out: Ranges)
    requires Valid(s)
    ensures Valid(out) && Bytes(out) == Bytes(s) - Span(r)
  {
    if r.size <= 0 {
      assert Span(r) == {};
      return s;
    }
    out := RemoveSome(s, r);
  }

  method RemoveSome(s: Ranges, r: Rng) returns (out: Ranges)
    requires Valid(s) && r.size > 0
    ensures Valid(out) && Bytes(out) == Bytes(s) - Span(r)
  {
    var i := Search(s, r.pos);
    PrefixClear(s, r, i);
    if i == |s| {
      assert s[..i] == s;
      return s;
    }
    out, i := CutOverlaps(s, r, i);
    RemoveRest(s, r, i, out);
    out := out + s[i..];
  }

  /** Cuts the entries from `first` on that overlap `r`, and stops at the first one past it. */
  method CutOverlaps(s: Ranges, r: Rng, first: nat) returns (out: Ranges, i: nat)
    requires Valid(s) && r.size > 0 && first < |s| && r.pos < s[first].End() && CutSoFar(s, r, first, s[..first])
    ensures i <= |s| && (i < |s| ==> s[i].pos >= r.End()) && CutSoFar(s, r, i, out)
  {
    i := first;
    out := s[..i];
    while i < |s| && s[i].pos < r.End()
      invariant i <= |s| && CutSoFar(s, r, i, out)
      invariant i < |s| ==> r.pos < s[i].End()
    {
      RemoveStep(s, r, i, out);
      out := out + Cut(s[i], r);
      i := i + 1;
    }
  }

  lemma RemoveRest(s: Ranges, r: Rng, i: nat, out: Ranges)
    requires i <= |s| && Valid(s) && (i < |s| ==> s[i].pos >= r.End()) && CutSoFar(s, r, i, out)
    ensures Valid(out + s[i..]) && Bytes(out + s[i..]) == Bytes(s) - Span(r)
  {
    SuffixClear(s, r, i);
    ValidConcat(out, s[i..]);
    BytesConcat(out, s[i..]);
  }

  lemma PrefixClear(s: Ranges, r: Rng, i: nat)
    requires Valid(s) && i <= |s| && forall k | 0 <= k < i :: s[k].End() <= r.pos
    ensures CutSoFar(s, r, i, s[..i])
  {
    forall b | b in Bytes(s[..i]) ensures b !in Span(r) { BytesIff(s[..i], b); }
  }

  lemma SuffixClear(s: Ranges, r: Rng, i: nat)
    requires Valid(s) && i <= |s| && (i < |s| ==> s[i].pos >= r.End())
    ensures Bytes(s) - Span(r) == (Bytes(s[..i]) - Span(r)) + Bytes(s[i..])
  {
    Split2(s, i);
    PastClear(s[i..], r);
  }

  lemma PastClear(s: Ranges, r: Rng)
    requires Valid(s) && (s != [] ==> s[0].pos >= r.End())
    ensures Bytes(s) !! Span(r)
  {
    forall b | b in Bytes(s) ensures b !in Span(r) { BytesIff(s, b); }
  }

  lemma RemoveStep(s: Ranges, r: Rng, i: nat, out: Ranges)
    requires Valid(s) && i < |s| && r.size > 0 && s[i].pos < r.End() && r.pos < s[i].End()
    requires CutSoFar(s, r, i, out)
    ensures CutSoFar(s, r, i + 1, out + Cut(s[i], r))
    ensures i + 1 < |s| ==> r.pos < s[i + 1].End()
  {
    CutBytes(s[i], r);
    CutApart(s, r, i, out);
    ValidConcat(out, Cut(s[i], r));
    RemoveBytes(s, r, i, out);
  }

  lemma RemoveBytes(s: Ranges, r: Rng, i: nat, out: Ranges)
    requires i < |s| && s[i].size > 0 && r.size > 0 && s[i].pos < r.End() && r.pos < s[i].End()
    requires Bytes(out) == Bytes(s[..i]) - Span(r)
    ensures Bytes(out + Cut(s[i], r)) == Bytes(s[..i + 1]) - Span(r)
  {
    CutBytes(s[i], r);
    BytesConcat(out, Cut(s[i], r));
    PrefixGrows(s, i);
  }

  lemma PrefixGrows(s: Ranges, i: nat)
    requires i < |s|
    ensures Bytes(s[..i + 1]) == Bytes(s[..i]) + Span(s[i])
  {
    assert s[..i + 1] == s[..i] + [s[i]];
    BytesConcat(s[..i], [s[i]]);
    BytesOne(s[i]);
  }

  lemma CutApart(s: Ranges, r: Rng, i: nat, out: Ranges)
    requires Valid(s) && i < |s| && Apart(out, s[i..])
    requires forall c | c in Cut(s[i], r) :: s[i].pos <= c.pos && c.End() <= s[i].End()
    ensures Apart(out, Cut(s[i], r)) && Apart(out + Cut(s[i], r), s[i + 1..])
  {
    var cut, rest := Cut(s[i], r), s[i + 1..];
    assert s[i..][0] == s[i];
    forall k, c | 0 <= k < |out| && 0 <= c < |cut| ensures out[k].End() < cut[c].pos {
      assert cut[c] in cut;
    }
    var next := out + cut;
    forall k, c | 0 <= k < |next| && 0 <= c < |rest| ensures next[k].End() < rest[c].pos {
      assert rest[c] == s[i + 1 + c] == s[i..][c + 1];
      if k >= |out| { assert next[k] == cut[k - |out|] && cut[k - |out|] in cut; }
    }
  }

  // -------------------------------------------------- missing runs and size

  /** `runs` are the uncovered bytes of `r` before `pos`. */
  ghost predicate RunsSoFar(s: Ranges, r: Rng, pos: int, runs: Ranges) {
    && r.pos <= pos && Valid(runs)
    && (forall b :: b in Bytes(runs) <==> r.pos <= b < pos && b !in Bytes(s))
    && (forall k | 0 <= k < |runs| :: runs[k].End() <= pos)
  }

  /** The uncovered bytes of `r`, as ordered, non-empty runs that never touch, appended to `dst`. */
  method MissingWithin(s: Ranges, r: Rng, dst: Ranges) returns (out: Ranges)
    requires Valid(s)
    ensures |dst| <= |out| && out[..|dst|] == dst
    ensures Valid(out[|dst|..]) && Bytes(out[|dst|..]) == Span(r) - Bytes(s)
  {
    var pos := r.pos;
    var runs: Ranges := [];
    while pos < r.End()
      invariant (r.size > 0 ==> pos <= r.End()) && (r.size <= 0 ==> pos == r.pos)
      invariant RunsSoFar(s, r, pos, runs)
      invariant pos < r.End() && runs != [] ==> pos in Bytes(s)
      decreases r.End() - pos
    {
      var m := FindMissing(s, Rng(pos, r.End() - pos));
      FindMissingExact(s, Rng(pos, r.End() - pos));
      if m.size == 0 { break; }
      var end := RunEnd(s, m);
      MissingRun(s, m, end);
      AppendRun(s, r, pos, m, end, runs);
      runs := runs + [Rng(m.pos, end - m.pos)];
      pos := end;
    }
    out := dst + runs;
    assert out[|dst|..] == runs;
    RunsComplete(s, r, pos, runs);
  }

  lemma RunsComplete(s: Ranges, r: Rng, pos: int, runs: Ranges)
    requires RunsSoFar(s, r, pos, runs)
    requires if pos < r.End() then Span(Rng(pos, r.End() - pos)) <= Bytes(s) else r.size <= 0 || pos == r.End()
    requires r.size <= 0 ==> pos == r.pos
    ensures Bytes(runs) == Span(r) - Bytes(s)
  {
    forall b ensures b in Bytes(runs) <==> b in Span(r) && b !in Bytes(s) {
      if pos <= b < r.End() { assert b in Span(Rng(pos, r.End() - pos)); }
    }
  }

  /** Where the run that starts at `m` ends: at the next entry, or with `m`. */
  function RunEnd(s: Ranges, m: Rng): int {
    var i := Search(s, m.pos);
    if i < |s| && s[i].pos < m.End() then s[i].pos else m.End()
  }

  /** From the first uncovered byte to the next entry or the end nothing is covered. */
  lemma MissingRun(s: Ranges, m: Rng, end: int)
    requires Valid(s) && m.pos !in Bytes(s) && m.size > 0 && end == RunEnd(s, m)
    ensures m.pos < end <= m.End() && (end < m.End() ==> end in Bytes(s))
    ensures forall b | m.pos <= b < end :: b !in Bytes(s)
  {
    var i := Search(s, m.pos);
    SearchDecides(s, m.pos);
    if i < |s| {
      EntryBytes(s, i);
      assert s[i].Holds(s[i].pos);
    }
  }

  lemma AppendRun(s: Ranges, r: Rng, pos: int, m: Rng, end: int, runs: Ranges)
    requires RunsSoFar(s, r, pos, runs) && pos <= m.pos < end
    requires Span(Rng(pos, m.pos - pos)) <= Bytes(s)
    requires forall b | m.pos <= b < end :: b !in Bytes(s)
    requires runs != [] ==> pos in Bytes(s)
    ensures RunsSoFar(s, r, end, runs + [Rng(m.pos, end - m.pos)])
  {
    var run := Rng(m.pos, end - m.pos);
    assert runs != [] ==> pos < m.pos;
    forall b ensures b in Bytes(runs + [run]) <==> r.pos <= b < end && b !in Bytes(s) {
      AppendBytes(runs, run, b);
      if pos <= b < m.pos { assert b in Span(Rng(pos, m.pos - pos)); }
    }
  }

  lemma AppendBytes(runs: Ranges, run: Rng, b: int)
    ensures b in Bytes(runs + [run]) <==> b in Bytes(runs) || run.pos <= b < run.End()
  {
    BytesConcat(runs, [run]);
    BytesOne(run);
    assert b in Span(run) <==> run.Holds(b);
  }

  lemma {:induction false} SpanSize(r: Rng)
    requires r.size >= 0
    ensures |Span(r)| == r.size
    decreases r.size
  {
    if r.size > 0 {
      var shorter := Rng(r.pos, r.size - 1);
      SpanSize(shorter);
      SpanGrows(r, shorter);
    } else {
      assert Span(r) == {};
    }
  }

  lemma SpanGrows(r: Rng, shorter: Rng)
    requires r.size > 0 && shorter == Rng(r.pos, r.size - 1)
    ensures Span(r) == Span(shorter) + {r.End() - 1} && r.End() - 1 !in Span(shorter)
  {
    forall b ensures b in Span(r) <==> b in Span(shorter) || b == r.End() - 1 {
      assert b in Span(r) <==> r.Holds(b);
      assert b in Span(shorter) <==> shorter.Holds(b);
    }
  }

  /** The number of covered bytes. */
  method Size(s: Ranges) returns (n: int)
    requires Valid(s)
    ensures n == |Bytes(s)|
  {
    n := 0;
    for i := 0 to |s|
      invariant n == |Bytes(s[..i])|
    {
      PrefixGrows(s, i);
      SpanSize(s[i]);
      forall b | b in Bytes(s[..i]) ensures b !in Span(s[i]) { BytesIff(s[..i], b); }
      n := n + s[i].size;
    }
    assert s[..|s|] == s;
  }
}
