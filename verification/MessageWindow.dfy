/**
 Message ids and credits of one SMB2 connection (smb/conn.go, messageWindow.take,
 admit and grant; section 3.3.5.2.3 of [MS-SMB2]).

 The window is a ring of SPAN flags standing for the set of every id ever consumed.
 Ids are 64-bit: once all of them have been consumed the base wraps to 0.
 */
module MessageWindow {
  const TOP: nat := 0x1_0000_0000_0000_0000
  const MAX_CREDITS: nat := 512
  const SPAN: nat := 1024

  function Slot(id: nat): nat { id % SPAN }

  lemma SlotDistinct(base: nat, x: nat, y: nat)
    requires base <= x < base + SPAN && base <= y < base + SPAN && Slot(x) == Slot(y)
    ensures x == y
  {}

  function Range(id: nat, charge: int): set<nat> { set k | id <= k < id + charge && In(id, charge, k) }

  predicate In(id: nat, charge: int, k: nat) { id <= k < id + charge }

  /** Every id has been consumed. */
  ghost predicate Full(ids: set<nat>) { forall k: nat | k < TOP :: k in ids }

  /** The lowest id not consumed. */
  ghost predicate Lowest(base: nat, ids: set<nat>) {
    base !in ids && forall k: nat | k < base :: k in ids
  }

  // ------------------------------------------------------ the abstract set

  /** The consumed ids, and the lowest one that is not. */
  datatype Ids = Ids(base: nat, ids: set<nat>)

  ghost predicate Ok(a: Ids) {
    && a.base < TOP && Lowest(a.base, a.ids)
    && forall k | k in a.ids :: k < TOP && k < a.base + SPAN
  }

  /** The whole charged range lies in the window and is unconsumed. */
  ghost predicate Admissible(a: Ids, id: nat, charge: int) {
    && 1 <= charge && a.base <= id && id + charge <= a.base + SPAN && id + charge <= TOP
    && forall k: nat | In(id, charge, k) :: k !in a.ids
  }

  ghost predicate Took(a: Ids, id: nat, charge: int, ok: bool, a': Ids) {
    && (ok <==> Admissible(a, id, charge))
    && (!ok ==> a' == a)
    && (ok ==> if Full(a.ids + Range(id, charge)) then a' == Ids(0, {})
               else a'.ids == a.ids + Range(id, charge) && Lowest(a'.base, a'.ids))
  }

  lemma TookOk(a: Ids, id: nat, charge: int, ok: bool, a': Ids)
    requires Ok(a) && Took(a, id, charge, ok, a')
    ensures Ok(a')
  {
    if ok && !Full(a.ids + Range(id, charge)) {
      var k: nat :| k < TOP && k !in a'.ids;
      assert a'.base <= k;
      assert a'.base !in a.ids;
      forall k | k in a'.ids ensures k < TOP && k < a'.base + SPAN {
        assert k in a.ids || In(id, charge, k);
      }
    }
  }

  // ------------------------------------------------------------- the ring

  class Window {
    var base: nat
    const used: array<bool>
    ghost var ids: set<nat>

    ghost function View(): Ids reads this { Ids(base, ids) }

    /** A flag in the window is up exactly for a consumed id. */
    ghost predicate Valid() reads this, used {
      && used.Length == SPAN && Ok(View())
      && forall k | base <= k < base + SPAN :: used[Slot(k)] == (k in ids)
    }

    constructor ()
      ensures Valid() && View() == Ids(0, {}) && fresh(used)
    {
      base, ids := 0, {};
      used := new bool[SPAN](i => false);
    }

    method Take(id: nat, charge: int) returns (ok: bool)
      requires Valid() && id < TOP
      modifies `base, `ids, used
      ensures Valid() && Took(old(View()), id, charge, ok, View())
    {
      if charge < 1 || charge > SPAN || id < base || id - base > SPAN - charge || charge - 1 > TOP - 1 - id {
        return false;
      }
      var free := Free(id, charge);
      if !free { return false; }
      MarkAll(id, charge);
      assert forall k: nat | base <= k < base + SPAN :: used[Slot(k)] == used[..][Slot(k)];
      ids := ids + Range(id, charge);
      Advance();
      return true;
    }

    method Free(id: nat, charge: nat) returns (free: bool)
      requires Valid() && base <= id && id + charge <= base + SPAN
      ensures free <==> forall k: nat | In(id, charge, k) :: k !in ids
    {
      for i := 0 to charge
        invariant forall k: nat | In(id, i, k) :: k !in ids
      {
        if used[Slot(id + i)] {
          assert In(id, charge, id + i) && id + i in ids;
          return false;
        }
      }
      return true;
    }

    method MarkAll(id: nat, charge: nat)
      requires Valid() && base <= id && id + charge <= base + SPAN
      modifies used
      ensures Marked(base, ids, id, charge, used[..])
    {
      for i := 0 to charge
        invariant Marked(base, ids, id, i, used[..])
      {
        used[Slot(id + i)] := true;
        MarkNext(base, ids, id, i, used[..]);
      }
    }

    /** Forgets the ids below the lowest one still outstanding. */
    method Advance()
      requires used.Length == SPAN && base < TOP
      requires forall k: nat | k < base :: k in ids
      requires forall k | k in ids :: k < TOP && k < base + SPAN
      requires forall k: nat | base <= k < base + SPAN :: used[Slot(k)] == (k in ids)
      modifies `base, `ids, used
      ensures Valid()
      ensures if Full(old(ids)) then View() == Ids(0, {}) else ids == old(ids)
    {
      ghost var low := base;
      while used[Slot(base)]
        modifies `base, used
        invariant old(base) <= low <= old(base) + SPAN && base == low % TOP && low <= TOP
        invariant Swept(old(base), low, ids, used[..])
        decreases old(base) + SPAN - low
      {
        SweptNext(old(base), low, ids, used[..]);
        used[Slot(base)] := false;
        base := (base + 1) % TOP;
        low := low + 1;
      }
      SweptDone(old(base), low, ids, used[..]);
      if low == TOP { ids := {}; }
      assert forall k: nat | base <= k < base + SPAN :: used[Slot(k)] == used[..][Slot(k)];
    }
  }

  /** The flags stand for the ids in the set and the first `i` of the charged range. */
  ghost predicate Marked(base: nat, ids: set<nat>, id: nat, i: int, used: seq<bool>) {
    |used| == SPAN && forall k: nat | base <= k < base + SPAN :: used[Slot(k)] == (k in ids || In(id, i, k))
  }

  lemma MarkNext(base: nat, ids: set<nat>, id: nat, i: nat, used: seq<bool>)
    requires base <= id && id + i < base + SPAN && |used| == SPAN && used[Slot(id + i)]
    requires forall k: nat | base <= k < base + SPAN && Slot(k) != Slot(id + i) ::
      used[Slot(k)] == (k in ids || In(id, i, k))
    ensures Marked(base, ids, id, i + 1, used)
  {
    forall k: nat | base <= k < base + SPAN ensures used[Slot(k)] == (k in ids || In(id, i + 1, k)) {
      if Slot(k) == Slot(id + i) { SlotDistinct(base, k, id + i); }
    }
  }

  /** Everything from `first` to `low` is consumed and its flag is down; above, the flags stand. */
  ghost predicate Swept(first: nat, low: nat, ids: set<nat>, used: seq<bool>) {
    && |used| == SPAN
    && (forall k: nat | k < low :: k in ids)
    && (forall k: nat | first <= k < low :: !used[Slot(k)])
    && (forall k: nat | low <= k < first + SPAN :: used[Slot(k)] == (k in ids))
  }

  lemma SweptNext(first: nat, low: nat, ids: set<nat>, used: seq<bool>)
    requires Swept(first, low, ids, used) && first <= low <= first + SPAN && used[Slot(low)]
    requires forall k | k in ids :: k < TOP
    ensures low < first + SPAN && low < TOP && low in ids && Swept(first, low + 1, ids, used[Slot(low) := false])
  {
    assert Slot(first + SPAN) == Slot(first);
    forall k: nat | low + 1 <= k < first + SPAN ensures Slot(k) != Slot(low) {
      if Slot(k) == Slot(low) { SlotDistinct(first, k, low); }
    }
  }

  lemma SweptDone(first: nat, low: nat, ids: set<nat>, used: seq<bool>)
    requires Swept(first, low, ids, used) && first <= low <= first + SPAN && low <= TOP && !used[Slot(low % TOP)]
    requires forall k | k in ids :: k < TOP && k < first + SPAN
    ensures low == TOP <==> Full(ids)
    ensures low == TOP ==> forall k: nat | k < SPAN :: !used[Slot(k)]
    ensures low < TOP ==> low !in ids && forall k: nat | low <= k < low + SPAN :: used[Slot(k)] == (k in ids)
  {
    if low < TOP {
      forall k: nat | low <= k < low + SPAN ensures used[Slot(k)] == (k in ids) {
        if k >= first + SPAN { assert Slot(k) == Slot(k - SPAN); }
      }
    } else {
      forall k: nat | k < SPAN ensures !used[Slot(k)] {
        var x := Congruent(first, k);
        assert x < low || x !in ids;
      }
    }
  }

  /** Some id of the window has the flag `k` has. */
  function Congruent(first: nat, k: nat): (x: nat)
    requires k < SPAN
    ensures first <= x < first + SPAN && Slot(x) == Slot(k)
  {
    if Slot(first) <= k then first - Slot(first) + k else first - Slot(first) + SPAN + k
  }

  // --------------------------------------------------------------- credits

  /** One connection: the credits its client holds and the ids it has used. */
  class Connection {
    var credits: int
    const window: Window
    ghost var granted: int
    ghost var charged: int

    /** The client holds what it started with, plus what was granted, less what it spent. */
    ghost predicate Valid() reads this, window, window.used {
      window.Valid() && 0 <= credits <= MAX_CREDITS && credits == 1 + granted - charged
    }

    constructor ()
      ensures Valid() && credits == 1 && window.View() == Ids(0, {}) && fresh(window) && fresh(window.used)
    {
      credits, granted, charged := 1, 0, 0;
      window := new Window();
    }

    /** False ends the connection. */
    method Admit(cancel: bool, creditCharge: nat, messageId: nat) returns (ok: bool)
      requires Valid() && messageId < TOP
      modifies `credits, `charged, window`base, window`ids, window.used
      ensures Valid() && granted == old(granted)
      ensures var charge := if creditCharge == 0 then 1 else creditCharge;
              if cancel then ok && credits == old(credits) && window.View() == old(window.View())
              else if charge > old(credits) then !ok && credits == old(credits) && window.View() == old(window.View())
              else
                && Took(old(window.View()), messageId, charge, ok, window.View())
                && charged == old(charged) + if ok then charge else 0
    {
      if cancel { return true; }
      var charge := if creditCharge == 0 then 1 else creditCharge;
      if charge > credits { return false; }
      ok := window.Take(messageId, charge);
      if !ok { return; }
      credits, charged := credits - charge, charged + charge;
    }

    /** A client is never left with none. */
    method Grant(request: nat) returns (given: int)
      requires Valid()
      modifies `credits, `granted
      ensures Valid() && given == granted - old(granted) && 0 <= given && credits >= 1
      ensures given > 0 || old(credits) == MAX_CREDITS
    {
      var want := if request > 1 then request else 1;
      var room := MAX_CREDITS - credits;
      if room <= 0 { return 0; }
      if want > room { want := room; }
      credits, granted := credits + want, granted + want;
      return want;
    }
  }

  // ------------------------------------------------------------------ runs

  datatype Request = Request(id: nat, charge: int) {
    function Ids(): set<nat> { Range(id, charge) }
  }

  /** The windows between the requests of a run that starts with nothing consumed. */
  ghost predicate Run(ws: seq<Ids>, run: seq<Request>, oks: seq<bool>) {
    && |ws| == |run| + 1 && |oks| == |run| && ws[0] == Ids.Ids(0, {})
    && forall i | 0 <= i < |run| :: Took(ws[i], run[i].id, run[i].charge, oks[i], ws[i + 1])
  }

  /** Request `i` consumed the last id there was. */
  ghost predicate Exhausts(ws: seq<Ids>, run: seq<Request>, oks: seq<bool>, i: nat)
    requires Run(ws, run, oks) && i < |run|
  {
    oks[i] && Full(ws[i].ids + run[i].Ids())
  }

  lemma {:induction false} StaysConsumed(ws: seq<Ids>, run: seq<Request>, oks: seq<bool>, i: nat, j: nat)
    requires Run(ws, run, oks) && i <= j <= |run| && forall m | i <= m < j :: !Exhausts(ws, run, oks, m)
    ensures ws[i].ids <= ws[j].ids
    decreases j - i
  {
    if i < j {
      assert !Exhausts(ws, run, oks, i);
      StaysConsumed(ws, run, oks, i + 1, j);
    }
  }

  /** No id is admitted twice unless every 64-bit id has been consumed in between. */
  lemma NoIdAdmittedTwice(ws: seq<Ids>, run: seq<Request>, oks: seq<bool>, i: nat, j: nat)
    requires Run(ws, run, oks) && i < j < |run| && oks[i] && oks[j]
    ensures run[i].Ids() !! run[j].Ids() || exists m :: i <= m < j && Exhausts(ws, run, oks, m)
  {
    if forall m | i <= m < j :: !Exhausts(ws, run, oks, m) {
      StaysConsumed(ws, run, oks, i + 1, j);
      assert !Exhausts(ws, run, oks, i) && Took(ws[i], run[i].id, run[i].charge, true, ws[i + 1]);
      assert run[i].Ids() <= ws[i + 1].ids;
      assert Took(ws[j], run[j].id, run[j].charge, true, ws[j + 1]);
      forall k | k in run[j].Ids() ensures k !in ws[j].ids { assert In(run[j].id, run[j].charge, k); }
    }
  }

  /** And then they are admitted again. */
  lemma ExhaustedStartsOver(ws: seq<Ids>, run: seq<Request>, oks: seq<bool>, i: nat, id: nat)
    requires Run(ws, run, oks) && i < |run| && Exhausts(ws, run, oks, i)
    ensures Admissible(ws[i + 1], id, 1) <==> id < SPAN
  {
    assert ws[i + 1] == Ids.Ids(0, {});
  }
}
