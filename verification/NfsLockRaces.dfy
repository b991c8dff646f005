/**
 What LOCK in two sections does not keep: two runs in which a RENAME falls between them.
 */
module NfsLockRaces {
  import opened LockRanges
  import opened NfsTables
  import opened NfsInvariants
  import opened NfsRuns
  import opened NfsLockPhases
  import opened NfsRaces

  /** Some run from the empty store, with LOCK in two sections, ends in `m`. */
  ghost predicate Phased(m: Phases) {
    exists events :: HandleAll(Boot(90, 90), events) == m
  }

  lemma {:induction false} HandleMore(m: Phases, events: seq<Event>, e: Event)
    ensures HandleAll(m, events + [e]) == Handle(HandleAll(m, events), e)
    decreases |events|
  {
    if events != [] {
      assert (events + [e])[1..] == events[1..] + [e];
      HandleMore(Handle(m, events[0]), events[1..], e);
    }
  }

  lemma PhasedThen(m: Phases, e: Event)
    requires Phased(m)
    ensures Phased(Handle(m, e))
  {
    var events :| HandleAll(Boot(90, 90), events) == m;
    HandleMore(Boot(90, 90), events, e);
  }

  /** A run of whole operations is a run in which no LOCK is between its sections. */
  lemma {:induction false} RunsArePhased(steps: seq<Step>)
    ensures Phased(Phases(Run(Start(90, 90), steps), map[]))
  {
    if steps == [] {
      assert HandleAll(Boot(90, 90), []) == Phases(Start(90, 90), map[]);
    } else {
      var last := steps[|steps|-1];
      RunsArePhased(steps[..|steps|-1]);
      PhasedThen(Phases(Run(Start(90, 90), steps[..|steps|-1]), map[]), Does(last));
    }
  }

  lemma NoneBetween(w: World)
    requires Reachable(w)
    ensures Phased(Phases(w, map[]))
  {
    var steps :| Run(Start(90, 90), steps) == w;
    RunsArePhased(steps);
  }

  // ---------- a first LOCK ----------

  const FIRST_LOCK := First(1, OwnerOf(1), "/a", BYTE)

  /** Client 1 has the path open for both under stateid 1, and no lock of it is held. */
  ghost predicate OpenAt(s: State, p: Path) {
    && 1 in s.opens && s.opens[1] == Open(1, OwnerOf(1), p, BOTH, NONE) && OwnerOf(1) in s.okOwners && 1 !in s.expired
    && s.next == 1 && forall l :: l !in s.locks
  }

  lemma OpenMoves(s: State)
    requires OpenAt(s, "/a")
    ensures OpenAt(Rename(s, "/a", "/b"), "/b")
  {}

  /** Client 1's first LOCK of /a finds its open. */
  lemma FirstFinds() returns (m: Phases)
    ensures Phased(m) && m.halves == map[LOCKER := FIRST_LOCK] && OpenAt(m.w.t.s, "/a")
  {
    var w := OpensForBoth();
    NoneBetween(w);
    m := FirstResolves(Phases(w, map[]));
  }

  lemma FirstResolves(m: Phases) returns (m': Phases)
    requires Phased(m) && m.halves == map[] && m.w.pending == map[] && m.w.t.cl.confirmed == {1}
    requires OpenAt(m.w.t.s, "/a")
    ensures Phased(m') && m'.halves == map[LOCKER := FIRST_LOCK] && OpenAt(m'.w.t.s, "/a")
  {
    var lock := LockFirst(LOCKER, BYTE);
    assert Resolved(m.w.t, 1, 1, "/a", lock) == Some((LOCKER, FIRST_LOCK));
    m' := Handle(m, Resolve(1, 1, "/a", lock));
    PhasedThen(m, Resolve(1, 1, "/a", lock));
  }

  /** A reachable state in which a lock is listed under a path that its open has left. */
  lemma StrayLockRace()
    ensures exists m :: Phased(m) && !LocksStand(m.w.t.s.opens, m.w.t.s.locks)
  {
    var m := FirstFinds();
    var m1 := Handle(m, Does(RenameTo("/a", "/b")));
    PhasedThen(m, Does(RenameTo("/a", "/b")));
    OpenMoves(m.w.t.s);
    StrayLock(m1);
  }

  lemma StrayLock(m: Phases)
    requires Phased(m) && m.halves == map[LOCKER := FIRST_LOCK] && OpenAt(m.w.t.s, "/b")
    ensures exists m :: Phased(m) && !LocksStand(m.w.t.s.opens, m.w.t.s.locks)
  {
    PhasedThen(m, Finish(LOCKER));
    assert FinishStatus(m.w.t.s, LOCKER, FIRST_LOCK) == Ok;
    var s' := Handle(m, Finish(LOCKER)).w.t.s;
    assert 2 in s'.locks && s'.locks[2].path == "/a" && s'.locks[2].open == 1 && s'.opens[1].path == "/b";
  }

  // ---------- a further LOCK ----------

  const SECOND := Owner(OpenOwner, 1, "second")
  const LOCKER2 := Owner(LockOwner, 1, "locker2")
  const BYTE_FIVE := LockRange(5, 6, false, true)
  const FURTHER := More(2, "/a", BYTE_FIVE)

  /** Client 1 has a write lock on byte 0 of `p`, and a second owner of it has /b open. */
  ghost predicate TwoOpen(s: State, p: Path) {
    && s.next >= 3 && 1 in s.opens && s.opens[1].path == p && s.opens[1].access == BOTH
    && 2 in s.locks && s.locks[2] == Lock(1, 1, LOCKER, 1, p, [BYTE])
    && 3 in s.opens && s.opens[3] == Open(1, SECOND, "/b", BOTH, NONE)
    && 2 !in s.opens && 2 !in s.expired && 3 !in s.expired
  }

  lemma SecondOpens() returns (w: World)
    ensures Reachable(w) && w.pending == map[] && w.t.cl.confirmed == {1}
    ensures TwoOpen(w.t.s, "/a") && w.t.s.next == 3 && forall l | l in w.t.s.locks :: l == 2
  {
    var w1 := Locks();
    assert OpensOf(w1.t.s, 1) == {1};
    var cl;
    w, cl := FreeOpens(w1, SECOND, "/b", BOTH, NONE, false);
  }

  lemma SecondConfirms() returns (w: World)
    ensures Reachable(w) && w.pending == map[] && w.t.cl.confirmed == {1} && SECOND in w.t.s.okOwners
    ensures TwoOpen(w.t.s, "/a") && w.t.s.next == 3 && forall l | l in w.t.s.locks :: l == 2
  {
    var w1 := SecondOpens();
    var confirm := Sequenced(3, 1, "/b", ConfirmOpen);
    w := Next(w1, confirm);
    Then(w1, confirm);
    assert SeqOwner(w1.t.s, 3) == Some(SECOND);
    TouchOwnerFrame(w1.t, 3);
    assert ConfirmStatus(w1.t.s, 3, 1, "/b") == Ok;
  }

  /** The second owner locks byte 5 of /b. */
  ghost predicate TwoLocked(s: State, p: Path) {
    && TwoOpen(s, p) && 4 in s.locks && s.locks[4] == Lock(1, 1, LOCKER2, 3, "/b", [BYTE_FIVE])
    && forall l | l in s.locks :: l == 2 || l == 4
  }

  lemma SecondLocks() returns (w: World)
    ensures Reachable(w) && w.pending == map[] && w.t.cl.confirmed == {1} && TwoLocked(w.t.s, "/a")
  {
    var w1 := SecondConfirms();
    var lock := Sequenced(3, 1, "/b", LockFirst(LOCKER2, BYTE_FIVE));
    w := Next(w1, lock);
    Then(w1, lock);
    assert SeqOwner(w1.t.s, 3) == Some(SECOND);
    assert LockNewStatus(w1.t.s, 3, 1, LOCKER2, "/b", BYTE_FIVE) == Ok;
    LockNewEffect(w1.t, 3, 1, LOCKER2, "/b", BYTE_FIVE);
    assert w.t.s == WithLock(w1.t.s, LOCKER2, 3, "/b", BYTE_FIVE);
  }

  lemma TwoCanonical(s: State, p: Path)
    requires TwoLocked(s, p)
    ensures AllCanonical(s)
  {
    assert Canonical([BYTE]) && Canonical([BYTE_FIVE]);
  }

  lemma FurtherResolves(m: Phases) returns (m': Phases)
    requires Phased(m) && m.halves == map[] && m.w.pending == map[] && TwoLocked(m.w.t.s, "/a")
    ensures Phased(m') && m'.halves == map[LOCKER := FURTHER] && TwoLocked(m'.w.t.s, "/a")
  {
    TwoCanonical(m.w.t.s, "/a");
    assert SeqOwner(m.w.t.s, 2) == Some(LOCKER);
    assert Resolved(m.w.t, 2, 1, "/a", LockAgain(BYTE_FIVE)) == Some((LOCKER, FURTHER));
    m' := Handle(m, Resolve(2, 1, "/a", LockAgain(BYTE_FIVE)));
    PhasedThen(m, Resolve(2, 1, "/a", LockAgain(BYTE_FIVE)));
  }

  lemma TwoMove(s: State)
    requires TwoLocked(s, "/a")
    ensures TwoLocked(Rename(s, "/a", "/b"), "/b")
  {}

  /** A reachable state in which two owners have write-locked the same byte of /b. */
  lemma BlindLockRace()
    ensures exists m :: Phased(m) && !LocksExclusive(m.w.t.s.locks)
  {
    var w := SecondLocks();
    NoneBetween(w);
    var m := FurtherResolves(Phases(w, map[]));
    var m1 := Handle(m, Does(RenameTo("/a", "/b")));
    PhasedThen(m, Does(RenameTo("/a", "/b")));
    TwoMove(m.w.t.s);
    BlindLock(m1);
  }

  lemma FewRanges()
    ensures Canonical([BYTE]) && |Updated([BYTE], BYTE_FIVE)| == 2
  {
    var both := [BYTE, BYTE_FIVE];
    var out := Updated([BYTE], BYTE_FIVE);
    forall b: nat ensures ModeAt(out, b) == ModeAt(both, b) {
      assert BYTE.Covers(b) ==> Held([BYTE], b, true) && Held(both, b, true) by { assert [BYTE][0] == both[0] == BYTE; }
      assert BYTE_FIVE.Covers(b) ==> Held(both, b, true) by { assert both[1] == BYTE_FIVE; }
    }
    CanonicalUnique(out, both);
  }

  lemma BlindLock(m: Phases)
    requires Phased(m) && m.halves == map[LOCKER := FURTHER] && TwoLocked(m.w.t.s, "/b")
    ensures exists m :: Phased(m) && !LocksExclusive(m.w.t.s.locks)
  {
    var s := m.w.t.s;
    TwoCanonical(s, "/b");
    PhasedThen(m, Finish(LOCKER));
    FewRanges();
    assert FinishStatus(s, LOCKER, FURTHER) == Ok;
    assert RangesConflict(s.locks[4].ranges, BYTE_FIVE) by { assert Overlap([BYTE_FIVE][0], BYTE_FIVE); }
    OverlapsAfter(s, 2, BYTE_FIVE, 4);
  }
}
