/**
 SMB2 byte-range locks (smb/ops_misc.go, lock and setInfo's rename; smb/state.go,
 closeHandle).

 A LOCK request carries several elements.  The code edits the path's slice in place,
 element by element, and puts a copy back when one fails; it is proved to be the fold
 of the one-element operation, or no change at all.
 */
module SmbLocks {
  import opened MapSums

  const TOP: nat := 0x1_0000_0000_0000_0000
  const MAX_ELEMENTS: nat := 64
  const MAX_PER_SESSION: nat := 65536

  datatype Handle = Handle(id: nat, session: nat)

  datatype ByteLock = ByteLock(handle: Handle, start: nat, end: nat, write: bool)

  type Locks = seq<ByteLock>

  /** The flag bits of a lock element; `other` is any bit outside the defined ones. */
  datatype Flags = Flags(shared: bool, exclusive: bool, unlock: bool, other: bool) {
    predicate Defined() { !other && (if unlock then !shared && !exclusive else shared != exclusive) }
  }

  datatype Element = Element(start: nat, length: nat, flags: Flags)

  datatype Status = Success | InvalidParameter | RangeNotLocked | LockNotGranted | InsufficientResources

  datatype Outcome = Done(locks: Locks) | Failed(status: Status)

  predicate Overlap(a: ByteLock, b: ByteLock) { a.start < b.end && b.start < a.end }

  predicate Clash(a: ByteLock, b: ByteLock) { a.handle != b.handle && Overlap(a, b) && (a.write || b.write) }

  function Held(locks: Locks, session: nat): nat {
    if locks == [] then 0 else (if locks[0].handle.session == session then 1 else 0) + Held(locks[1..], session)
  }

  predicate Same(l: ByteLock, h: Handle, start: nat, end: nat) { l.handle == h && l.start == start && l.end == end }

  /** The first lock of `h` with exactly this range, or the length. */
  function Find(locks: Locks, h: Handle, start: nat, end: nat): (k: nat)
    ensures k <= |locks| && (k < |locks| ==> Same(locks[k], h, start, end))
    ensures forall i | 0 <= i < k :: !Same(locks[i], h, start, end)
  {
    if locks == [] || Same(locks[0], h, start, end) then 0 else 1 + Find(locks[1..], h, start, end)
  }

  function DroppedAt(locks: Locks, k: nat): Locks
    requires k < |locks|
  {
    locks[..k] + locks[k + 1..]
  }

  /** One element on one path; `others` are the session's locks on other paths. */
  function One(locks: Locks, others: nat, h: Handle, e: Element): Outcome {
    var end := e.start + e.length;
    if !e.flags.Defined() || e.length == 0 || end >= TOP then Failed(InvalidParameter)
    else if e.flags.unlock then
      var k := Find(locks, h, e.start, end);
      if k == |locks| then Failed(RangeNotLocked) else Done(DroppedAt(locks, k))
    else
      var added := ByteLock(h, e.start, end, e.flags.exclusive);
      if exists i :: 0 <= i < |locks| && Clash(added, locks[i]) then Failed(LockNotGranted)
      else if others + Held(locks, h.session) >= MAX_PER_SESSION then Failed(InsufficientResources)
      else Done(locks + [added])
  }

  /** The elements one after another. */
  function All(locks: Locks, others: nat, h: Handle, es: seq<Element>): Outcome
    decreases |es|
  {
    if es == [] then Done(locks)
    else
      match One(locks, others, h, es[0])
      case Failed(st) => Failed(st)
      case Done(next) => All(next, others, h, es[1..])
  }

  /** A whole request: every element or none. */
  function Request(locks: Locks, others: nat, h: Handle, es: seq<Element>): Outcome {
    if |es| == 0 || |es| > MAX_ELEMENTS then Failed(InvalidParameter) else All(locks, others, h, es)
  }

  // ---------------------------------------------------- counting a session

  lemma {:induction false} HeldConcat(a: Locks, b: Locks, session: nat)
    ensures Held(a + b, session) == Held(a, session) + Held(b, session)
  {
    if a == [] {
      assert a + b == b;
    } else {
      assert (a + b)[1..] == a[1..] + b;
      HeldConcat(a[1..], b, session);
    }
  }

  lemma HeldOne(l: ByteLock, session: nat)
    ensures Held([l], session) == if l.handle.session == session then 1 else 0
  {
    assert [l][1..] == [];
  }

  lemma HeldDropped(locks: Locks, k: nat, session: nat)
    requires k < |locks|
    ensures var mine := locks[k].handle.session == session;
            Held(DroppedAt(locks, k), session) == Held(locks, session) - if mine then 1 else 0
  {
    assert locks == locks[..k] + ([locks[k]] + locks[k + 1..]);
    HeldConcat(locks[..k], [locks[k]] + locks[k + 1..], session);
    HeldConcat([locks[k]], locks[k + 1..], session);
    HeldOne(locks[k], session);
    HeldConcat(locks[..k], locks[k + 1..], session);
  }

  lemma HeldMore(locks: Locks, l: ByteLock, session: nat)
    ensures Held(locks + [l], session) == Held(locks, session) + if l.handle.session == session then 1 else 0
  {
    HeldConcat(locks, [l], session);
    HeldOne(l, session);
  }

  // ------------------------------------------------------ the slice in place

  /** The lock list of one path: a slice over an array that later appends and removals share. */
  class PathLocks {
    var arr: array<ByteLock>
    var len: nat

    ghost predicate Valid() reads this { len <= arr.Length }

    ghost function Contents(): Locks
      requires Valid()
      reads this, arr
    {
      arr[..len]
    }

    constructor ()
      ensures Valid() && Contents() == [] && fresh(arr)
    {
      arr := new ByteLock[0];
      len := 0;
    }

    /** All elements or none, although the elements before a failing one have already changed the array. */
    method Lock(h: Handle, es: seq<Element>, others: nat) returns (st: Status)
      requires Valid()
      modifies this, arr
      ensures Valid()
      ensures match Request(old(Contents()), others, h, es)
              case Done(locks) => st == Success && Contents() == locks
              case Failed(why) => st == why && Contents() == old(Contents())
    {
      if |es| == 0 || |es| > MAX_ELEMENTS { return InvalidParameter; }
      var original := Copy(arr, len);
      var a := arr;
      var n: nat := len;
      var count := CountHeld(a, n, h.session);
      count := count + others;
      ghost var before := a[..n];
      var i := 0;
      while i < |es|
        invariant i <= |es| && n <= a.Length && arr == old(arr) && len == old(len)
        invariant (a == arr || fresh(a)) && a != original
        invariant original[..] == before && original.Length == len && fresh(original)
        invariant count == others + Held(a[..n], h.session)
        invariant All(before, others, h, es) == All(a[..n], others, h, es[i..])
      {
        a, n, count, st := Step(a, n, count, others, h, es[i]);
        if st != Success {
          arr := original;
          return;
        }
        assert es[i..][1..] == es[i + 1..];
        i := i + 1;
      }
      arr, len := a, n;
      st := Success;
    }

    /** Drops a handle's locks, compacting the array in place. */
    method Close(h: Handle)
      requires Valid()
      modifies this, arr
      ensures Valid() && Contents() == NotOf(old(Contents()), h)
    {
      var w: nat := 0;
      for i := 0 to len
        invariant w <= i && len == old(len) && arr == old(arr)
        invariant arr[..w] == NotOf(old(arr[..len])[..i], h)
        invariant arr[i..len] == old(arr[..len])[i..]
      {
        assert arr[i] == old(arr[..len])[i] by { assert arr[i..len][0] == arr[i]; }
        NotOfNext(old(arr[..len]), i, h);
        ghost var rest := arr[i..len];
        if arr[i].handle != h {
          arr[w] := arr[i];
          w := w + 1;
        }
        assert arr[i + 1..len] == rest[1..];
      }
      assert old(arr[..len])[..len] == old(arr[..len]);
      len := w;
    }
  }

  function NotOf(locks: Locks, h: Handle): Locks {
    if locks == [] then []
    else (if locks[0].handle == h then [] else [locks[0]]) + NotOf(locks[1..], h)
  }

  lemma {:induction false} NotOfNext(locks: Locks, i: nat, h: Handle)
    requires i < |locks|
    ensures NotOf(locks[..i + 1], h) == NotOf(locks[..i], h) + if locks[i].handle == h then [] else [locks[i]]
    decreases i
  {
    if i > 0 {
      NotOfNext(locks[1..], i - 1, h);
      assert locks[..i + 1][1..] == locks[1..][..i] && locks[..i][1..] == locks[1..][..i - 1];
    } else {
      assert locks[..1][1..] == [];
    }
  }

  method Copy(a: array<ByteLock>, n: nat) returns (b: array<ByteLock>)
    requires n <= a.Length
    ensures fresh(b) && b.Length == n && b[..] == a[..n]
  {
    b := new ByteLock[n](i requires 0 <= i < n reads a => a[i]);
  }

  method CountHeld(a: array<ByteLock>, n: nat, session: nat) returns (count: nat)
    requires n <= a.Length
    ensures count == Held(a[..n], session)
  {
    count := 0;
    for i := 0 to n
      invariant count == Held(a[..i], session)
    {
      assert a[..i + 1] == a[..i] + [a[i]];
      HeldMore(a[..i], a[i], session);
      if a[i].handle.session == session { count := count + 1; }
    }
  }

  /** One element on the shared array. */
  method Step(a: array<ByteLock>, n: nat, count: nat, others: nat, h: Handle, e: Element)
    returns (a': array<ByteLock>, n': nat, count': nat, st: Status)
    requires n <= a.Length && count == others + Held(a[..n], h.session)
    modifies a
    ensures (a' == a || fresh(a')) && n' <= a'.Length
    ensures match One(old(a[..n]), others, h, e)
            case Done(locks) => st == Success && a'[..n'] == locks && count' == others + Held(locks, h.session)
            case Failed(why) => st == why
  {
    a', n', count' := a, n, count;
    var end := e.start + e.length;
    if !e.flags.Defined() { return a', n', count', InvalidParameter; }
    if e.length == 0 || end >= TOP { return a', n', count', InvalidParameter; }
    if e.flags.unlock {
      var k := IndexOf(a, n, h, e.start, end);
      if k == n { return a', n', count', RangeNotLocked; }
      HeldDropped(a[..n], k, h.session);
      RemoveAt(a, n, k);
      return a, n - 1, count - 1, Success;
    }
    var lock := ByteLock(h, e.start, end, e.flags.exclusive);
    var clash := AnyClash(a, n, lock);
    if clash { return a', n', count', LockNotGranted; }
    if count >= MAX_PER_SESSION { return a', n', count', InsufficientResources; }
    HeldMore(a[..n], lock, h.session);
    a' := Append(a, n, lock);
    return a', n + 1, count + 1, Success;
  }

  method IndexOf(a: array<ByteLock>, n: nat, h: Handle, start: nat, end: nat) returns (k: nat)
    requires n <= a.Length
    ensures k == Find(a[..n], h, start, end)
  {
    k := 0;
    while k < n && !Same(a[k], h, start, end)
      invariant k <= n && forall i | 0 <= i < k :: !Same(a[i], h, start, end)
    {
      k := k + 1;
    }
    FindIs(a[..n], h, start, end, k);
  }

  lemma FindIs(locks: Locks, h: Handle, start: nat, end: nat, k: nat)
    requires k <= |locks| && (k < |locks| ==> Same(locks[k], h, start, end))
    requires forall i | 0 <= i < k :: !Same(locks[i], h, start, end)
    ensures k == Find(locks, h, start, end)
  {
    var f := Find(locks, h, start, end);
    assert !(f < k) && !(k < f);
  }

  method AnyClash(a: array<ByteLock>, n: nat, lock: ByteLock) returns (clash: bool)
    requires n <= a.Length
    ensures clash <==> exists i :: 0 <= i < |a[..n]| && Clash(lock, a[..n][i])
  {
    for i := 0 to n
      invariant forall k | 0 <= k < i :: !Clash(lock, a[..n][k])
    {
      if Clash(lock, a[i]) {
        assert a[..n][i] == a[i];
        return true;
      }
    }
    return false;
  }

  /** Shifts the tail down one place, in place. */
  method RemoveAt(a: array<ByteLock>, n: nat, k: nat)
    requires k < n <= a.Length
    modifies a
    ensures a[..n - 1] == DroppedAt(old(a[..n]), k)
  {
    for i := k to n - 1
      invariant a[..k] == old(a[..k])
      invariant forall x | k <= x < i :: a[x] == old(a[x + 1])
      invariant forall x | i <= x < n :: a[x] == old(a[x])
    {
      a[i] := a[i + 1];
    }
    assert forall x | 0 <= x < n - 1 :: a[..n - 1][x] == DroppedAt(old(a[..n]), k)[x];
  }

  /** Writes in place when there is room, and grows otherwise. */
  method Append(a: array<ByteLock>, n: nat, lock: ByteLock) returns (b: array<ByteLock>)
    requires n <= a.Length
    modifies a
    ensures (b == a || fresh(b)) && n < b.Length && b[..n + 1] == old(a[..n]) + [lock]
  {
    if n < a.Length {
      a[n] := lock;
      b := a;
    } else {
      b := new ByteLock[2 * n + 1](i requires 0 <= i <= 2 * n reads a => if i < n then a[i] else lock);
      assert b[..n] == old(a[..n]);
    }
  }

  // -------------------------------------------------------- undoing a lock

  lemma DroppedCounts(locks: Locks, k: nat)
    requires k < |locks|
    ensures multiset(DroppedAt(locks, k)) == multiset(locks) - multiset{locks[k]}
  {
    assert locks == locks[..k] + [locks[k]] + locks[k + 1..];
  }

  function NewLock(h: Handle, e: Element): ByteLock { ByteLock(h, e.start, e.start + e.length, e.flags.exclusive) }

  function Unlocking(e: Element): Element { e.(flags := Flags(false, false, true, false)) }

  lemma LockAppends(locks: Locks, others: nat, h: Handle, e: Element)
    requires !e.flags.unlock && One(locks, others, h, e).Done?
    ensures One(locks, others, h, e).locks == locks + [NewLock(h, e)] && e.length > 0 && e.start + e.length < TOP
  {}

  lemma UnlockTakes(locks: Locks, others: nat, h: Handle, e: Element)
    requires e.length > 0 && e.start + e.length < TOP && Find(locks, h, e.start, e.start + e.length) < |locks|
    ensures One(locks, others, h, Unlocking(e)) == Done(DroppedAt(locks, Find(locks, h, e.start, e.start + e.length)))
  {}

  lemma LockThenUnlock(locks: Locks, others: nat, h: Handle, e: Element, more: Locks)
    requires !e.flags.unlock && One(locks, others, h, e) == Done(more)
    ensures more == locks + [NewLock(h, e)]
    ensures One(more, others, h, Unlocking(e)) == Done(DroppedAt(more, Find(locks, h, e.start, e.start + e.length)))
  {
    LockAppends(locks, others, h, e);
    assert more == locks + [NewLock(h, e)];
    FindAppended(locks, NewLock(h, e));
    assert Find(more, h, e.start, e.start + e.length) == Find(locks, h, e.start, e.start + e.length);
    UnlockTakes(more, others, h, e);
  }

  /**
   Unlocking a range that was just locked gives back the same locks exactly when the
   handle did not hold that very range in the other mode: the unlock takes the oldest.
   */
  lemma UnlockUndoesLockIff(locks: Locks, others: nat, h: Handle, e: Element, more: Locks, less: Locks)
    requires !e.flags.unlock && One(locks, others, h, e) == Done(more)
    requires One(more, others, h, Unlocking(e)) == Done(less)
    ensures var k := Find(locks, h, e.start, e.start + e.length);
            multiset(less) == multiset(locks) <==> k == |locks| || locks[k].write == e.flags.exclusive
  {
    LockThenUnlock(locks, others, h, e, more);
    TakeOldest(locks, NewLock(h, e), Find(locks, h, e.start, e.start + e.length));
  }

  lemma FindAppended(locks: Locks, lock: ByteLock)
    ensures Find(locks + [lock], lock.handle, lock.start, lock.end) == Find(locks, lock.handle, lock.start, lock.end)
  {
    FindIs(locks + [lock], lock.handle, lock.start, lock.end, Find(locks, lock.handle, lock.start, lock.end));
  }

  lemma TakeOldest(locks: Locks, lock: ByteLock, k: nat)
    requires k <= |locks| && (k < |locks| ==> Same(locks[k], lock.handle, lock.start, lock.end))
    ensures multiset(DroppedAt(locks + [lock], k)) == multiset(locks) <==> k == |locks| || locks[k].write == lock.write
  {
    DroppedCounts(locks + [lock], k);
    assert multiset(locks + [lock]) == multiset(locks) + multiset{lock};
    if k < |locks| && locks[k] != lock {
      assert multiset(DroppedAt(locks + [lock], k))[lock] == multiset(locks)[lock] + 1;
    }
  }

  // ------------------------------------------------------------------ runs

  type Table = map<string, Locks>

  /** The lock table, the path of every handle there has been, and the handles that are open. */
  datatype State = State(table: Table, paths: map<Handle, string>, open: set<Handle>)

  /** A request finds its handle before it takes the lock, so a LOCK may come after the CLOSE of its handle. */
  datatype Op =
    | Open(h: Handle, path: string)
    | Lock(h: Handle, es: seq<Element>)
    | Close(h: Handle)
    | Rename(from: string, to: string)

  const EMPTY := State(map[], map[], {})

  function On(t: Table, path: string): Locks { if path in t then t[path] else [] }

  ghost function Counts(t: Table, session: nat): map<string, int> { map p | p in t :: Held(t[p], session) }

  /** All the locks a session holds. */
  ghost function Total(t: Table, session: nat): int { Sum(Counts(t, session)) }

  ghost function Locked(t: Table, path: string, h: Handle, es: seq<Element>): Table {
    SessionSplit(t, path, h.session);
    match Request(On(t, path), Total(t, h.session) - Held(On(t, path), h.session), h, es)
    case Done(locks) => t[path := locks]
    case Failed(_) => if |es| == 0 || |es| > MAX_ELEMENTS then t else t[path := On(t, path)]
  }

  function Closed(t: Table, path: string, h: Handle): Table {
    var left := NotOf(On(t, path), h);
    if left == [] then t - {path} else t[path := left]
  }

  /** The list is appended to the target's, with no conflict check, and then its own key is deleted. */
  function Renamed(t: Table, from: string, to: string): Table {
    if On(t, from) == [] then t else t[to := On(t, to) + On(t, from)] - {from}
  }

  function Followed(st: State, from: string, to: string): map<Handle, string> {
    map h | h in st.paths :: if h in st.open && st.paths[h] == from then to else st.paths[h]
  }

  ghost function Apply(st: State, op: Op): State {
    match op
    case Open(h, path) => if h in st.paths then st else st.(paths := st.paths[h := path], open := st.open + {h})
    case Lock(h, es) => if h in st.paths then st.(table := Locked(st.table, st.paths[h], h, es)) else st
    case Close(h) =>
      if h in st.paths then st.(table := Closed(st.table, st.paths[h], h), open := st.open - {h}) else st
    case Rename(from, to) => State(Renamed(st.table, from, to), Followed(st, from, to), st.open)
  }

  /** No two handles hold overlapping ranges with one of them exclusive. */
  ghost predicate Exclusive(locks: Locks) {
    forall i, j | 0 <= i < |locks| && 0 <= j < |locks| :: !Clash(locks[i], locks[j])
  }

  /** Every lock is a non-empty range below the top. */
  ghost predicate Ranged(locks: Locks) {
    forall i | 0 <= i < |locks| :: locks[i].start < locks[i].end < TOP
  }

  ghost predicate Sound(t: Table) {
    && (forall p | p in t :: Exclusive(t[p]) && Ranged(t[p]))
    && (forall s: nat :: Total(t, s) <= MAX_PER_SESSION)
  }

  lemma SessionSplit(t: Table, path: string, session: nat)
    ensures Total(t, session) >= Held(On(t, path), session)
  {
    var rest := Counts(t, session) - {path};
    if path in t {
      SumWithout(Counts(t, session), path);
      SumNatural(rest);
    } else {
      SumNatural(Counts(t, session));
    }
  }

  lemma {:induction false} SumNatural<K>(m: map<K, int>)
    requires forall k | k in m :: m[k] >= 0
    ensures Sum(m) >= 0
    decreases |m|
  {
    if m != map[] {
      var k :| k in m;
      SumWithout(m, k);
      SumNatural(m - {k});
    }
  }

  lemma TotalUpdate(t: Table, path: string, locks: Locks, session: nat)
    ensures Total(t[path := locks], session) == Total(t, session) - Held(On(t, path), session) + Held(locks, session)
  {
    SumUpdate(Counts(t, session), path, Held(locks, session));
    assert Counts(t[path := locks], session) == Counts(t, session)[path := Held(locks, session)];
  }

  lemma TotalDrop(t: Table, path: string, session: nat)
    ensures Total(t - {path}, session) == Total(t, session) - Held(On(t, path), session)
  {
    if path in t {
      SumWithout(Counts(t, session), path);
      assert Counts(t - {path}, session) == Counts(t, session) - {path};
    } else {
      assert t - {path} == t;
    }
  }

  lemma UnlockKeeps(locks: Locks, k: nat)
    requires k < |locks| && Exclusive(locks) && Ranged(locks)
    ensures Exclusive(DroppedAt(locks, k)) && Ranged(DroppedAt(locks, k))
  {
    var next := DroppedAt(locks, k);
    forall i | 0 <= i < |next| ensures next[i] == locks[if i < k then i else i + 1] {}
  }

  lemma LockAdds(locks: Locks, lock: ByteLock)
    requires Exclusive(locks) && Ranged(locks) && lock.start < lock.end < TOP
    requires forall i | 0 <= i < |locks| :: !Clash(lock, locks[i])
    ensures Exclusive(locks + [lock]) && Ranged(locks + [lock])
  {}

  /** What one element keeps: exclusion, well-formed ranges, every other session's count, and this session's bound. */
  lemma OneKeeps(locks: Locks, others: nat, h: Handle, e: Element, next: Locks)
    requires Exclusive(locks) && Ranged(locks) && others + Held(locks, h.session) <= MAX_PER_SESSION
    requires One(locks, others, h, e) == Done(next)
    ensures Exclusive(next) && Ranged(next) && others + Held(next, h.session) <= MAX_PER_SESSION
    ensures forall s: nat | s != h.session :: Held(next, s) == Held(locks, s)
  {
    if e.flags.unlock {
      var k := Find(locks, h, e.start, e.start + e.length);
      UnlockKeeps(locks, k);
      forall s: nat ensures Held(next, s) == Held(locks, s) - if s == h.session then 1 else 0 {
        HeldDropped(locks, k, s);
      }
    } else {
      var lock := ByteLock(h, e.start, e.start + e.length, e.flags.exclusive);
      LockAdds(locks, lock);
      forall s: nat ensures Held(next, s) == Held(locks, s) + if s == h.session then 1 else 0 {
        HeldMore(locks, lock, s);
      }
    }
  }

  lemma {:induction false} AllKeeps(locks: Locks, others: nat, h: Handle, es: seq<Element>, out: Locks)
    requires Exclusive(locks) && Ranged(locks) && others + Held(locks, h.session) <= MAX_PER_SESSION
    requires All(locks, others, h, es) == Done(out)
    ensures Exclusive(out) && Ranged(out) && others + Held(out, h.session) <= MAX_PER_SESSION
    ensures forall s: nat | s != h.session :: Held(out, s) == Held(locks, s)
    decreases |es|
  {
    if es != [] {
      var next := One(locks, others, h, es[0]).locks;
      OneKeeps(locks, others, h, es[0], next);
      AllKeeps(next, others, h, es[1..], out);
    }
  }

  lemma {:induction false} NotOfKeeps(locks: Locks, h: Handle)
    requires Exclusive(locks) && Ranged(locks)
    ensures Exclusive(NotOf(locks, h)) && Ranged(NotOf(locks, h))
    ensures forall l :: l in NotOf(locks, h) <==> l in locks && l.handle != h
    ensures forall s: nat :: Held(NotOf(locks, h), s) <= Held(locks, s)
  {
    if locks != [] {
      NotOfKeeps(locks[1..], h);
      var rest, head := NotOf(locks[1..], h), if locks[0].handle == h then [] else [locks[0]];
      assert locks == [locks[0]] + locks[1..];
      forall i | 0 <= i < |rest| ensures rest[i] in locks { assert rest[i] in locks[1..]; }
      forall s: nat ensures Held(head + rest, s) <= Held(locks, s) {
        HeldConcat(head, rest, s);
        HeldOne(locks[0], s);
      }
    }
  }

  /** One path's list may be replaced by a sound one that leaves every session within its bound. */
  lemma UpdateSound(t: Table, path: string, out: Locks, who: nat)
    requires Sound(t) && Exclusive(out) && Ranged(out)
    requires Total(t, who) - Held(On(t, path), who) + Held(out, who) <= MAX_PER_SESSION
    requires forall s: nat | s != who :: Held(out, s) <= Held(On(t, path), s)
    ensures Sound(t[path := out])
  {
    var next := t[path := out];
    forall s: nat ensures Total(next, s) <= MAX_PER_SESSION { UpdateBound(t, path, out, who, s); }
  }

  lemma UpdateBound(t: Table, path: string, out: Locks, who: nat, s: nat)
    requires Total(t, s) <= MAX_PER_SESSION
    requires Total(t, who) - Held(On(t, path), who) + Held(out, who) <= MAX_PER_SESSION
    requires s != who ==> Held(out, s) <= Held(On(t, path), s)
    ensures Total(t[path := out], s) <= MAX_PER_SESSION
  {
    TotalUpdate(t, path, out, s);
  }

  lemma LockKeeps(t: Table, path: string, h: Handle, es: seq<Element>)
    requires Sound(t)
    ensures Sound(Locked(t, path, h, es))
  {
    var locks := On(t, path);
    SessionSplit(t, path, h.session);
    var others := Total(t, h.session) - Held(locks, h.session);
    match Request(locks, others, h, es) {
      case Done(next) =>
        AllKeeps(locks, others, h, es, next);
        UpdateSound(t, path, next, h.session);
      case Failed(_) => UpdateSound(t, path, locks, h.session);
    }
  }

  lemma CloseKeeps(t: Table, path: string, h: Handle)
    requires Sound(t)
    ensures Sound(Closed(t, path, h))
  {
    NotOfKeeps(On(t, path), h);
    if NotOf(On(t, path), h) == [] {
      forall s: nat ensures Total(t - {path}, s) <= MAX_PER_SESSION { TotalDrop(t, path, s); }
    } else {
      UpdateSound(t, path, NotOf(On(t, path), h), h.session);
    }
  }

  // ---------------------------------------------------------------- rename

  /** No lock that moves clashes with one that is there. */
  ghost predicate MergeOk(t: Table, from: string, to: string) {
    forall i, j | 0 <= i < |On(t, from)| && 0 <= j < |On(t, to)| :: !Clash(On(t, from)[i], On(t, to)[j])
  }

  lemma MergedExclusiveIff(a: Locks, b: Locks)
    requires Exclusive(a) && Exclusive(b)
    ensures Exclusive(a + b) <==> forall i, j | 0 <= i < |b| && 0 <= j < |a| :: !Clash(b[i], a[j])
  {
    if Exclusive(a + b) {
      forall i, j | 0 <= i < |b| && 0 <= j < |a| ensures !Clash(b[i], a[j]) {
        assert (a + b)[|a| + i] == b[i] && (a + b)[j] == a[j];
      }
    }
  }

  lemma RenamedTotal(t: Table, from: string, to: string, session: nat)
    ensures Total(Renamed(t, from, to), session)
         == Total(t, session) - if from == to then Held(On(t, from), session) else 0
  {
    if On(t, from) != [] {
      var joined := On(t, to) + On(t, from);
      HeldConcat(On(t, to), On(t, from), session);
      TotalUpdate(t, to, joined, session);
      TotalDrop(t[to := joined], from, session);
    }
  }

  lemma SoundOn(t: Table, path: string)
    requires Sound(t)
    ensures Exclusive(On(t, path)) && Ranged(On(t, path))
  {}

  /** A rename keeps exclusion exactly when it is onto itself or no lock that moves clashes with one that is there. */
  lemma RenameSoundIff(t: Table, from: string, to: string)
    requires Sound(t)
    ensures Sound(Renamed(t, from, to)) <==> from == to || MergeOk(t, from, to)
  {
    SoundOn(t, from);
    SoundOn(t, to);
    MergedExclusiveIff(On(t, to), On(t, from));
    var next := Renamed(t, from, to);
    forall s: nat ensures Total(next, s) <= MAX_PER_SESSION {
      RenamedTotal(t, from, to, s);
      SessionSplit(t, from, s);
    }
    if On(t, from) != [] && from != to {
      assert next[to] == On(t, to) + On(t, from);
      assert forall p | p in next && p != to :: p in t && next[p] == t[p];
    }
  }

  /**
   A rename onto another name gives up no lock; one onto the same name appends the list to
   itself and then deletes it, so every lock of the file is lost.
   */
  lemma RenameConservesIff(t: Table, from: string, to: string)
    ensures (forall s: nat :: Total(Renamed(t, from, to), s) == Total(t, s)) <==> from != to || On(t, from) == []
  {
    forall s: nat ensures Total(Renamed(t, from, to), s)
                       == Total(t, s) - if from == to then Held(On(t, from), s) else 0
    {
      RenamedTotal(t, from, to, s);
    }
    if On(t, from) != [] { assert Held(On(t, from), On(t, from)[0].handle.session) > 0; }
  }

  // ------------------------------------------------------------ every run

  ghost predicate Careful(st: State, op: Op) {
    op.Rename? ==> op.from == op.to || MergeOk(st.table, op.from, op.to)
  }

  lemma StepSoundIff(st: State, op: Op)
    requires Sound(st.table)
    ensures Sound(Apply(st, op).table) <==> Careful(st, op)
  {
    match op
    case Open(_, _) =>
    case Lock(h, es) => if h in st.paths { LockKeeps(st.table, st.paths[h], h, es); }
    case Close(h) => if h in st.paths { CloseKeeps(st.table, st.paths[h], h); }
    case Rename(from, to) => RenameSoundIff(st.table, from, to);
  }

  ghost function After(st: State, run: seq<Op>): State
    decreases |run|
  {
    if run == [] then st else After(Apply(st, run[0]), run[1..])
  }

  ghost predicate RunCareful(st: State, run: seq<Op>)
    decreases |run|
  {
    run == [] || (Careful(st, run[0]) && RunCareful(Apply(st, run[0]), run[1..]))
  }

  ghost predicate SoundThroughout(st: State, run: seq<Op>)
    decreases |run|
  {
    Sound(st.table) && (run == [] || SoundThroughout(Apply(st, run[0]), run[1..]))
  }

  /** A run is sound throughout exactly when each of its renames is careful. */
  lemma {:induction false} RunSoundIff(st: State, run: seq<Op>)
    requires Sound(st.table)
    ensures SoundThroughout(st, run) <==> RunCareful(st, run)
    ensures SoundThroughout(st, run) ==> Sound(After(st, run).table)
    decreases |run|
  {
    if run != [] {
      StepSoundIff(st, run[0]);
      if Careful(st, run[0]) { RunSoundIff(Apply(st, run[0]), run[1..]); }
    }
  }

  lemma StartSound()
    ensures Sound(EMPTY.table)
  {
    forall s: nat ensures Total(map[], s) <= MAX_PER_SESSION { assert Counts(map[], s) == map[]; }
  }

  /**
   At the end of every run of opens, locks, closes and careful renames, locks of different
   handles are exclusive and no session is over its bound.
   */
  lemma EveryRunSound(run: seq<Op>)
    requires RunCareful(EMPTY, run)
    ensures Sound(After(EMPTY, run).table)
  {
    StartSound();
    RunSoundIff(EMPTY, run);
  }

  const ANN := Handle(1, 1)
  const BEN := Handle(2, 2)
  const FIRST_BYTE := Element(0, 1, Flags(false, true, false, false))

  lemma FirstLock(t: Table, path: string, h: Handle)
    requires path !in t && Total(t, h.session) == 0
    ensures Locked(t, path, h, [FIRST_BYTE]) == t[path := [NewLock(h, FIRST_BYTE)]]
  {
    var lock := NewLock(h, FIRST_BYTE);
    assert [] + [lock] == [lock];
    assert One([], 0, h, FIRST_BYTE) == Done([lock]);
    assert [FIRST_BYTE][1..] == [];
    assert All([], 0, h, [FIRST_BYTE]) == All([lock], 0, h, []);
    assert Request(On(t, path), Total(t, h.session) - Held(On(t, path), h.session), h, [FIRST_BYTE]) == Done([lock]);
  }

  function Both(): seq<Op> {
    [Open(ANN, "a"), Lock(ANN, [FIRST_BYTE]), Open(BEN, "b"), Lock(BEN, [FIRST_BYTE]), Rename("a", "b")]
  }

  /** Two handles lock the first byte of two files, and one file replaces the other: both hold the byte. */
  lemma MergeBreaks()
    ensures !Sound(After(EMPTY, Both()).table)
  {
    var la, lb := NewLock(ANN, FIRST_BYTE), NewLock(BEN, FIRST_BYTE);
    var s1 := Apply(EMPTY, Open(ANN, "a"));
    assert Counts(map[], 1) == map[];
    FirstLock(map[], "a", ANN);
    var s2 := Apply(s1, Lock(ANN, [FIRST_BYTE]));
    var s3 := Apply(s2, Open(BEN, "b"));
    OnlyOnA(la);
    FirstLock(s3.table, "b", BEN);
    var s4 := Apply(s3, Lock(BEN, [FIRST_BYTE]));
    var s5 := Apply(s4, Rename("a", "b"));
    assert s5.table["b"] == [lb] + [la];
    assert Clash(s5.table["b"][0], s5.table["b"][1]);
    Unfold5(EMPTY, Both());
  }

  lemma OnlyOnA(l: ByteLock)
    requires l.handle.session == 1
    ensures Total(map["a" := [l]], 2) == 0
  {
    TotalUpdate(map[], "a", [l], 2);
    HeldOne(l, 2);
    assert Counts(map[], 2) == map[];
  }

  lemma Unfold5(st: State, run: seq<Op>)
    requires |run| == 5
    ensures After(st, run) == Apply(Apply(Apply(Apply(Apply(st, run[0]), run[1]), run[2]), run[3]), run[4])
  {
    var s1 := Apply(st, run[0]);
    assert After(st, run) == After(s1, run[1..]);
    Unfold2(s1, run[1..]);
    var s3 := Apply(Apply(s1, run[1]), run[2]);
    assert run[1..][2..] == run[3..];
    Unfold2(s3, run[3..]);
    assert run[3..][2..] == [];
  }

  lemma Unfold2(st: State, run: seq<Op>)
    requires |run| >= 2
    ensures After(st, run) == After(Apply(Apply(st, run[0]), run[1]), run[2..])
  {
    assert run[1..][1..] == run[2..];
  }

  // ------------------------------------------------- what a close releases

  /** A lock of `h` is under this key. */
  predicate Holds(t: Table, p: string, h: Handle) { p in t && exists l :: l in t[p] && l.handle == h }

  lemma ClosedHolds(t: Table, path: string, h: Handle, p: string, k: Handle)
    ensures Holds(Closed(t, path, h), p, k) <==> Holds(t, p, k) && !(p == path && k == h)
  {
    var left := NotOf(On(t, path), h);
    NotOfLeft(On(t, path), h);
    if p == path && Holds(t, p, k) && k != h {
      var l :| l in t[p] && l.handle == k;
      assert l in left;
    }
  }

  lemma {:induction false} NotOfLeft(locks: Locks, h: Handle)
    ensures forall l :: l in NotOf(locks, h) <==> l in locks && l.handle != h
  {
    if locks != [] { NotOfLeft(locks[1..], h); }
  }

  /** A close releases all of the handle's locks, and no other, exactly when they are all under the handle's path. */
  lemma CloseReleasesIff(st: State, h: Handle)
    requires h in st.paths
    ensures var t' := Apply(st, Close(h)).table;
            && (forall p, k | k != h :: Holds(t', p, k) <==> Holds(st.table, p, k))
            && ((forall p :: !Holds(t', p, h)) <==> (forall p :: Holds(st.table, p, h) ==> p == st.paths[h]))
  {
    forall p, k ensures Holds(Apply(st, Close(h)).table, p, k)
                   <==> Holds(st.table, p, k) && !(p == st.paths[h] && k == h)
    {
      ClosedHolds(st.table, st.paths[h], h, p, k);
    }
  }

  /** Every lock is of an open handle and under that handle's path. */
  ghost predicate AtHome(st: State) {
    && st.open <= st.paths.Keys
    && forall p, h | Holds(st.table, p, h) :: h in st.open && st.paths[h] == p
  }

  /** A LOCK comes before the CLOSE of its handle. */
  predicate Prompt(st: State, op: Op) { op.Lock? ==> op.h in st.open }

  lemma {:induction false} AllOwn(locks: Locks, others: nat, h: Handle, es: seq<Element>)
    ensures var r := All(locks, others, h, es); r.Done? ==> forall l | l in r.locks :: l in locks || l.handle == h
    decreases |es|
  {
    if es != [] && One(locks, others, h, es[0]).Done? {
      AllOwn(One(locks, others, h, es[0]).locks, others, h, es[1..]);
    }
  }

  lemma LockedHolds(t: Table, path: string, h: Handle, es: seq<Element>, p: string, k: Handle)
    requires Holds(Locked(t, path, h, es), p, k)
    ensures Holds(t, p, k) || (p == path && k == h)
  {
    SessionSplit(t, path, h.session);
    AllOwn(On(t, path), Total(t, h.session) - Held(On(t, path), h.session), h, es);
  }

  lemma RenamedHolds(t: Table, from: string, to: string, p: string, k: Handle)
    requires Holds(Renamed(t, from, to), p, k)
    ensures (Holds(t, p, k) && p != from) || (p == to && Holds(t, from, k))
  {
    var l :| l in Renamed(t, from, to)[p] && l.handle == k;
    if On(t, from) != [] && p == to { assert l in On(t, to) || l in On(t, from); }
  }

  lemma StepAtHome(st: State, op: Op)
    requires AtHome(st) && Prompt(st, op)
    ensures AtHome(Apply(st, op))
  {
    var st' := Apply(st, op);
    forall p, k | Holds(st'.table, p, k) ensures k in st'.open && st'.paths[k] == p {
      match op
      case Open(_, _) =>
      case Lock(h, es) => LockedHolds(st.table, st.paths[h], h, es, p, k);
      case Close(h) => if h in st.paths { ClosedHolds(st.table, st.paths[h], h, p, k); }
      case Rename(from, to) => RenamedHolds(st.table, from, to, p, k);
    }
  }

  ghost predicate RunPrompt(st: State, run: seq<Op>)
    decreases |run|
  {
    run == [] || (Prompt(st, run[0]) && RunPrompt(Apply(st, run[0]), run[1..]))
  }

  lemma {:induction false} RunAtHome(st: State, run: seq<Op>)
    requires AtHome(st) && RunPrompt(st, run)
    ensures AtHome(After(st, run))
    decreases |run|
  {
    if run != [] {
      StepAtHome(st, run[0]);
      RunAtHome(Apply(st, run[0]), run[1..]);
    }
  }

  /** In every prompt run, whatever is renamed, a closed handle has no lock left. */
  lemma EveryCloseReleases(run: seq<Op>, h: Handle, p: string)
    requires RunPrompt(EMPTY, run) && Holds(After(EMPTY, run).table, p, h)
    ensures var st := After(EMPTY, run); h in st.open && h in st.paths && st.paths[h] == p
  {
    RunAtHome(EMPTY, run);
  }

  /** A LOCK that found its handle before the CLOSE and runs after it leaves a lock nobody can release. */
  lemma LateLockStays()
    ensures var st := After(EMPTY, [Open(ANN, "a"), Close(ANN), Lock(ANN, [FIRST_BYTE])]);
            Holds(st.table, "a", ANN) && ANN !in st.open
  {
    var run := [Open(ANN, "a"), Close(ANN), Lock(ANN, [FIRST_BYTE])];
    var s2 := Apply(Apply(EMPTY, run[0]), run[1]);
    assert s2.table == map[] && Counts(map[], 1) == map[];
    FirstLock(map[], "a", ANN);
    var st := Apply(s2, run[2]);
    assert st.table["a"][0].handle == ANN;
    Unfold2(EMPTY, run);
    assert run[2..] == [run[2]] && [run[2]][1..] == [];
    assert After(s2, [run[2]]) == After(st, []);
  }
}
