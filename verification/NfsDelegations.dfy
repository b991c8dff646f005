/**
 Read delegations over whole runs: exclusion against other clients' writers,
 recall discipline, and which of it survives OPEN being split into phases.
 */
module NfsDelegations {
  import opened NfsTables
  import opened NfsInvariants
  import opened NfsRuns
  import opened NfsKept

  /** No open was added or strengthened and no delegation was added or moved. */
  ghost predicate NoNewClaims(s: State, s': State) {
    && (forall x :: x in s'.opens ==> x in s.opens && WeakerOpen(s'.opens[x], s.opens[x]))
    && (forall d :: d in s'.delegs ==> d in s.delegs && s'.delegs[d].path == s.delegs[d].path
                                       && s'.delegs[d].client == s.delegs[d].client)
  }

  ghost predicate WeakerOpen(a: Open, b: Open) {
    a.path == b.path && a.owner == b.owner && (a.access.w ==> b.access.w) && (a.deny.r ==> b.deny.r)
  }

  lemma ClaimsKeepDelegations(s: State, s': State)
    requires DelegationsOk(s.opens, s.delegs) && NoNewClaims(s, s')
    ensures DelegationsOk(s'.opens, s'.delegs)
  {}

  lemma PlainClaims(t: Tables, op: PlainOp)
    ensures NoNewClaims(t.s, ApplyPlain(t, op).s)
  {
    if op.SweepExpired? { SweepClaims(t); }
  }

  lemma SweepClaims(t: Tables)
    ensures NoNewClaims(t.s, Sweep(t).s)
  {
    var s1 := SweptTombs(t.s, t.lease, t.now);
    var s2 := Revoke(s1, ForfeitOf(s1, s1.delegs.Keys, t.now, t.recallWait), t.now);
    assert NoNewClaims(t.s, s2);
    var t2 := t.(cl := SweptClients(t.cl, t.lease, t.now), s := s2);
    assert NoNewClaims(s2, Sweep(t).s);
  }

  lemma EffectClaims(t: Tables, t': Tables, x: Other)
    requires SeqEffect(t, t', x)
    ensures NoNewClaims(t.s, t'.s)
  {
    if access: Bits, deny: Bits :| Narrowed(t.s, t'.s, x, access, deny) {}
  }

  lemma SeqClaims(t: Tables, x: Other, n: nat, p: Path, op: SeqOp)
    requires WellFormed(t.s, op)
    ensures NoNewClaims(t.s, ApplySeq(t, x, n, p, op).s) && SameFrame(t, ApplySeq(t, x, n, p, op))
  {
    SeqHasEffect(t, x, n, p, op);
    EffectClaims(t, ApplySeq(t, x, n, p, op), x);
  }

  lemma RecallClaims(t: Tables, p: Path, except: Option<ClientId>)
    ensures NoNewClaims(t.s, Recall(t, p, except).0.s)
  {}

  /** No delegation and no other client's writer are brought together by the rename. */
  ghost predicate DelegsApart(s: State, from: Path, to: Path) {
    forall d, x | d in s.delegs && x in s.opens && Meet(from, to, s.delegs[d].path, s.opens[x].path) ::
      s.delegs[d].client != s.opens[x].owner.client ==> !s.opens[x].access.w && !s.opens[x].deny.r
  }

  predicate Meet(from: Path, to: Path, p: Path, q: Path) { LandsOn(from, to, p, q) || LandsOn(from, to, q, p) }

  lemma RenameDelegationsIff(s: State, from: Path, to: Path)
    requires DelegationsOk(s.opens, s.delegs)
    ensures DelegationsOk(Rename(s, from, to).opens, Rename(s, from, to).delegs) <==> DelegsApart(s, from, to)
  {
    var s' := Rename(s, from, to);
    forall d, x | d in s.delegs && x in s.opens
      ensures s'.delegs[d].path == s'.opens[x].path <==> Together(from, to, s.delegs[d].path, s.opens[x].path)
    {
      MovedTogetherIff(from, to, s.delegs[d].path, s.opens[x].path);
    }
    if DelegationsOk(s'.opens, s'.delegs) {
      forall d, x | d in s.delegs && x in s.opens && Meet(from, to, s.delegs[d].path, s.opens[x].path)
        ensures s.delegs[d].client != s.opens[x].owner.client ==> !s.opens[x].access.w && !s.opens[x].deny.r
      {
        assert s'.delegs[d].path == s'.opens[x].path;
      }
    }
  }

  // ---------- the commit, exactly ----------

  /** Another client may still hold a delegation that this commit would falsify. */
  ghost predicate Falsifies(s: State, o: Owner, q: Pending) {
    (q.unionAccess.w || q.unionDeny.r) && Disturbed(s, q.path, Some(o.client)) != {}
  }

  lemma PlaceDelegations(s: State, o: Owner, q: Pending, pick: Other)
    requires DelegationsOk(s.opens, s.delegs) && !Falsifies(s, o, q)
    ensures DelegationsOk(PlaceOpen(s, o, q, pick).opens, s.delegs)
  {
    var found := FindOpen(s, q.path, o, pick);
    var x := if found.None? then s.next + 1 else found.value;
    SetOpenDelegations(s.opens, s.delegs, x, PlaceOpen(s, o, q, pick).opens[x]) by {
      PlacedOpenAvoids(s, o, q);
    }
  }

  lemma SetOpenDelegations(opens: map<Other, Open>, delegs: map<Other, Deleg>, x: Other, held: Open)
    requires DelegationsOk(opens, delegs)
    requires forall d :: d in delegs && delegs[d].path == held.path && delegs[d].client != held.owner.client
               ==> !held.access.w && !held.deny.r
    ensures DelegationsOk(opens[x := held], delegs)
  {}

  lemma PlacedOpenAvoids(s: State, o: Owner, q: Pending)
    requires !Falsifies(s, o, q)
    ensures forall d :: d in s.delegs && s.delegs[d].path == q.path && s.delegs[d].client != o.client
              ==> !q.unionAccess.w && !q.unionDeny.r
  {
    forall d | d in s.delegs && s.delegs[d].path == q.path && s.delegs[d].client != o.client
      ensures !q.unionAccess.w && !q.unionDeny.r
    {
      assert d in Disturbed(s, q.path, Some(o.client));
    }
  }

  lemma GrantDelegations(cl: Clients, s: State, p: Path, o: Owner, access: Bits)
    requires DelegationsOk(s.opens, s.delegs)
    ensures DelegationsOk(Grant(cl, s, p, o, access).opens, Grant(cl, s, p, o, access).delegs)
  {}

  lemma PlacedOpen(s: State, o: Owner, q: Pending, pick: Other) returns (x: Other)
    ensures x in PlaceOpen(s, o, q, pick).opens
    ensures var held := PlaceOpen(s, o, q, pick).opens[x];
            held.path == q.path && held.owner == o && held.access == q.unionAccess && held.deny == q.unionDeny
  {
    var found := FindOpen(s, q.path, o, pick);
    x := if found.None? then s.next + 1 else found.value;
  }

  /** The tables after a successful commit. */
  lemma CommitShape(t: Tables, o: Owner, q: Pending, delegations: bool, pick: Other)
    requires OpenStatus(t.s, o, q) == Ok
    ensures var s1 := PlaceOpen(t.s, o, q, pick);
            var s' := OpenCommit(t, o, q, delegations, pick).0.s;
            s1.delegs == t.s.delegs && s1.next >= t.s.next &&
            (s' == s1 || s' == Grant(t.cl, s1, q.path, o, q.unionAccess))
  {
    PlaceOpenEvolves(t.s, o, q, pick);
  }

  lemma CommitKeepsDelegations(t: Tables, o: Owner, q: Pending, delegations: bool, pick: Other)
    requires DelegationsOk(t.s.opens, t.s.delegs) && OpenStatus(t.s, o, q) == Ok && !Falsifies(t.s, o, q)
    ensures var s' := OpenCommit(t, o, q, delegations, pick).0.s; DelegationsOk(s'.opens, s'.delegs)
  {
    CommitShape(t, o, q, delegations, pick);
    PlaceDelegations(t.s, o, q, pick);
    GrantDelegations(t.cl, PlaceOpen(t.s, o, q, pick), q.path, o, q.unionAccess);
  }

  lemma CommitBreaksDelegations(t: Tables, o: Owner, q: Pending, delegations: bool, pick: Other)
    requires IdsOk(t.s) && OpenStatus(t.s, o, q) == Ok && Falsifies(t.s, o, q)
    ensures var s' := OpenCommit(t, o, q, delegations, pick).0.s; !DelegationsOk(s'.opens, s'.delegs)
  {
    CommitShape(t, o, q, delegations, pick);
    var s' := OpenCommit(t, o, q, delegations, pick).0.s;
    var d :| d in Disturbed(t.s, q.path, Some(o.client));
    var x := PlacedOpen(t.s, o, q, pick);
    assert d in s'.delegs && s'.delegs[d] == t.s.delegs[d];
    assert x in s'.opens && s'.opens[x].path == q.path;
  }

  /** A commit keeps delegations exclusive exactly when it falsifies none that is held at that moment. */
  lemma CommitKeepsDelegationsIff(t: Tables, o: Owner, q: Pending, delegations: bool, pick: Other)
    requires IdsOk(t.s) && DelegationsOk(t.s.opens, t.s.delegs) && OpenStatus(t.s, o, q) == Ok
    ensures var s' := OpenCommit(t, o, q, delegations, pick).0.s;
            DelegationsOk(s'.opens, s'.delegs) <==> !Falsifies(t.s, o, q)
  {
    if Falsifies(t.s, o, q) {
      CommitBreaksDelegations(t, o, q, delegations, pick);
    } else {
      CommitKeepsDelegations(t, o, q, delegations, pick);
    }
  }

  // ---------- OPEN and RENAME as one step ----------

  datatype Op =
    | One(step: Step)
    | WholeOpen(o: Owner, path: Path, access: Bits, deny: Bits, truncating: bool, delegations: bool, pick: Other)
    | WholeRename(from: Path, to: Path)

  predicate IsWhole(op: Op) {
    match op
    case One(step) => step.Plain? || step.Sequenced? || step.Disturb?
    case WholeOpen(_, _, _, _, _, _, _) => true
    case WholeRename(_, _) => true
  }

  /** RENAME recalls the delegations on both names first; None while one of them stands in the way. */
  ghost function Recalled(w: World, from: Path, to: Path): Option<World> {
    var w1 := RecallFor(w, from, None);
    if Recall(w.t, from, None).1 != Ok || Recall(w1.t, to, None).1 != Ok then None else Some(RecallFor(w1, to, None))
  }

  ghost function Renaming(w: World, from: Path, to: Path): World {
    var w1 := RecallFor(w, from, None);
    if !Incomparable(from, to) then w
    else if Recall(w.t, from, None).1 != Ok then w1
    else if Recalled(w, from, to).None? then RecallFor(w1, to, None)
    else Next(Recalled(w, from, to).value, RenameTo(from, to))
  }

  /** The renamed tree's delegations and writers get along with what stays where they land. */
  ghost predicate SparesDelegs(w: World, op: Op) {
    match op
    case WholeRename(from, to) =>
      var r := Recalled(w, from, to); Incomparable(from, to) && r.Some? ==> DelegsApart(r.value.t.s, from, to)
    case _ => true
  }

  ghost function ApplyOp(w: World, op: Op): World {
    match op
    case One(step) => Next(w, step)
    case WholeOpen(o, p, access, deny, trunc, ds, pick) =>
      Next(Next(Next(w, OpenBegin(o, p, access, deny, trunc, pick)), OpenRecall(o)), OpenEnd(o, ds, pick))
    case WholeRename(from, to) => Renaming(w, from, to)
  }

  ghost function RunOps(w: World, ops: seq<Op>): World {
    if ops == [] then w else ApplyOp(RunOps(w, ops[..|ops|-1]), ops[|ops|-1])
  }

  /** Every open, lock and delegation belongs to a confirmed client. */
  ghost predicate Owned(t: Tables) {
    && (forall x :: x in t.s.opens ==> t.s.opens[x].owner.client in t.cl.confirmed)
    && (forall x :: x in t.s.delegs ==> t.s.delegs[x].client in t.cl.confirmed)
  }

  ghost predicate Exclusive(w: World) {
    w.pending == map[] && DelegationsOk(w.t.s.opens, w.t.s.delegs) && Owned(w.t)
  }

  lemma OwnedKept(t: Tables, t': Tables)
    requires Owned(t) && NoNewClaims(t.s, t'.s)
    requires forall c :: c in t.cl.confirmed && c !in t'.cl.confirmed ==>
      (forall x :: x in t'.s.opens ==> t'.s.opens[x].owner.client != c) &&
      (forall d :: d in t'.s.delegs ==> t'.s.delegs[d].client != c)
    ensures Owned(t')
  {}

  lemma SweepOwned(t: Tables)
    requires Owned(t)
    ensures Owned(Sweep(t))
  {
    var s1 := SweptTombs(t.s, t.lease, t.now);
    var s2 := Revoke(s1, ForfeitOf(s1, s1.delegs.Keys, t.now, t.recallWait), t.now);
    var t2 := t.(cl := SweptClients(t.cl, t.lease, t.now), s := s2);
    assert Owned(t2);
    ExpireOwned(t2, LapsedClients(t2));
  }

  lemma ExpireOwned(t: Tables, dead: set<ClientId>)
    requires Owned(t)
    ensures Owned(ExpireClients(t, dead))
  {}

  lemma ConfirmOwned(t: Tables, id: ClientId, ok: bool)
    requires Owned(t)
    ensures Owned(ConfirmClient(t, id, ok).0)
  {
    if id in t.cl.unconfirmed && id in t.cl.all && ok {
      var owner := t.cl.all[id].ownerId;
      var t1 := if owner in t.cl.byOwner then Release(t, {t.cl.byOwner[owner]}) else t;
      assert Owned(t1);
    }
  }

  lemma PlainOwned(t: Tables, op: PlainOp)
    requires Owned(t)
    ensures Owned(ApplyPlain(t, op))
  {
    match op {
      case ConfirmClientId(id, ok) => ConfirmOwned(t, id, ok);
      case SweepExpired => SweepOwned(t);
      case _ =>
    }
  }

  lemma TouchConfirmed(t: Tables, c: ClientId)
    ensures Touch(t, c).cl.confirmed == t.cl.confirmed && Touch(t, c).s == t.s
  {}

  lemma SeqOwned(t: Tables, x: Other, n: nat, p: Path, op: SeqOp)
    requires Owned(t) && WellFormed(t.s, op)
    ensures Owned(ApplySeq(t, x, n, p, op))
  {
    SeqClaims(t, x, n, p, op);
    OwnedKept(t, ApplySeq(t, x, n, p, op));
  }

  lemma OneExclusive(w: World, step: Step)
    requires Exclusive(w) && IsWhole(One(step))
    ensures Exclusive(Next(w, step))
  {
    if Enabled(w, step) {
      match step {
        case Plain(op) =>
          PlainClaims(w.t, op);
          ClaimsKeepDelegations(w.t.s, ApplyPlain(w.t, op).s);
          PlainOwned(w.t, op);
        case Sequenced(x, n, p, op) =>
          SeqClaims(w.t, x, n, p, op);
          ClaimsKeepDelegations(w.t.s, ApplySeq(w.t, x, n, p, op).s);
          SeqOwned(w.t, x, n, p, op);
        case Disturb(p, except) =>
          RecallClaims(w.t, p, except);
          ClaimsKeepDelegations(w.t.s, Recall(w.t, p, except).0.s);
      }
    }
  }

  lemma RenamingExclusive(w: World, from: Path, to: Path)
    requires Exclusive(w) && SparesDelegs(w, WholeRename(from, to))
    ensures Exclusive(Renaming(w, from, to))
  {
    RecallForExclusive(w, from);
    RecallForExclusive(RecallFor(w, from, None), to);
    var r := Recalled(w, from, to);
    if Incomparable(from, to) && r.Some? { RenamedExclusive(r.value, from, to); }
  }

  lemma RecallForExclusive(w: World, p: Path)
    requires Exclusive(w)
    ensures Exclusive(RecallFor(w, p, None))
  {
    RecallExclusive(w.t, p, None);
  }

  lemma RenamedExclusive(w: World, from: Path, to: Path)
    requires Exclusive(w) && DelegsApart(w.t.s, from, to)
    ensures Exclusive(Next(w, RenameTo(from, to)))
  {
    RenameDelegationsIff(w.t.s, from, to);
  }

  /** Nothing of the table lies strictly below the name, as under a file. */
  ghost predicate NothingBelow(s: State, p: Path) {
    && (forall x :: x in s.opens ==> !(p + "/" <= s.opens[x].path))
    && (forall d :: d in s.delegs ==> !(p + "/" <= s.delegs[d].path))
  }

  /** Below and at neither name a delegation: nothing is brought together. */
  lemma CalmApart(s: State, from: Path, to: Path)
    requires NothingBelow(s, from) && Disturbed(s, from, None) == {} && Disturbed(s, to, None) == {}
    ensures DelegsApart(s, from, to)
  {
    forall d, x | d in s.delegs && x in s.opens ensures !Meet(from, to, s.delegs[d].path, s.opens[x].path) {
      assert d !in Disturbed(s, from, None) && d !in Disturbed(s, to, None);
    }
  }

  lemma ClaimsCalm(s: State, s': State, p: Path)
    requires NoNewClaims(s, s')
    ensures NothingBelow(s, p) ==> NothingBelow(s', p)
    ensures Disturbed(s, p, None) == {} ==> Disturbed(s', p, None) == {}
  {
    forall d | d in Disturbed(s', p, None) ensures d in Disturbed(s, p, None) {}
  }

  /** Renaming a file is always spared, because of the recalls. */
  lemma FileRenameSpares(w: World, from: Path, to: Path)
    requires NothingBelow(w.t.s, from)
    ensures SparesDelegs(w, WholeRename(from, to))
  {
    var t1 := Recall(w.t, from, None).0;
    var t2 := Recall(t1, to, None).0;
    RecallClaims(w.t, from, None);
    ClaimsCalm(w.t.s, t1.s, from);
    RecallClaims(t1, to, None);
    ClaimsCalm(t1.s, t2.s, from);
    if Recalled(w, from, to).Some? {
      RecallClears(w.t, from, None);
      RecallClears(t1, to, None);
      CalmApart(t2.s, from, to);
    }
  }

  /** A recall that answers OK leaves no other client's delegation on the path. */
  lemma RecallClears(t: Tables, p: Path, except: Option<ClientId>)
    requires Recall(t, p, except).1 == Ok
    ensures Disturbed(Recall(t, p, except).0.s, p, except) == {}
  {
    var disturbed := Disturbed(t.s, p, except);
    var gone := ForfeitOf(t.s, disturbed, t.now, t.recallWait);
    assert disturbed - gone == {};
    forall d | d in disturbed ensures d in gone { assert d !in disturbed - gone; }
    assert forall d :: d in Disturbed(Recall(t, p, except).0.s, p, except) ==> d in disturbed && d !in gone;
  }

  /** Right after its own recall phase, an OPEN falsifies no delegation. */
  lemma ClearedFalsifiesNone(s: State, t: Tables, o: Owner, p: Path, access: Bits, deny: Bits, trunc: bool, pick: Other)
    requires DelegationsOk(s.opens, s.delegs) && t.s == s
    requires OpenCheck(s, o, p, access, deny, trunc, pick).0.Some?
    ensures var q := OpenCheck(s, o, p, access, deny, trunc, pick).0.value;
            !NeedsRecall(q) ==> !Falsifies(s, o, q)
    ensures var q := OpenCheck(s, o, p, access, deny, trunc, pick).0.value;
            Recall(t, p, Some(o.client)).1 == Ok ==> !Falsifies(Recall(t, p, Some(o.client)).0.s, o, q)
  {
    var q := OpenCheck(s, o, p, access, deny, trunc, pick).0.value;
    if Recall(t, p, Some(o.client)).1 == Ok { RecallClears(t, p, Some(o.client)); }
    if !NeedsRecall(q) && (q.unionAccess.w || q.unionDeny.r) {
      var x := FindOpen(s, p, o, pick).value;
      assert x in s.opens && s.opens[x].path == p && (s.opens[x].access.w || s.opens[x].deny.r);
      assert forall d :: d in Disturbed(s, p, Some(o.client)) ==> false;
    }
  }

  lemma CommitOwned(t: Tables, o: Owner, q: Pending, delegations: bool, pick: Other)
    requires Owned(t) && o.client in t.cl.confirmed
    ensures Owned(OpenCommit(t, o, q, delegations, pick).0)
  {
    if OpenStatus(t.s, o, q) == Ok {
      var s1 := PlaceOpen(t.s, o, q, pick);
      assert Owned(t.(s := s1));
      var s2 := if delegations then Grant(t.cl, s1, q.path, o, q.unionAccess) else s1;
      assert Owned(t.(s := s2));
      TouchConfirmed(t.(s := s2), o.client);
    }
  }

  /** The commit phase of a checked and cleared OPEN, with nothing in between. */
  lemma EndExclusive(w: World, o: Owner, q: Pending, ds: bool, pick: Other)
    requires IdsOk(w.t.s) && w.pending == map[o := q] && q.cleared
    requires DelegationsOk(w.t.s.opens, w.t.s.delegs) && Owned(w.t) && o.client in w.t.cl.confirmed
    requires !Falsifies(w.t.s, o, q)
    ensures Exclusive(Next(w, OpenEnd(o, ds, pick)))
  {
    assert w.pending - {o} == map[];
    CommitOwned(w.t, o, q, ds, pick);
    if OpenStatus(w.t.s, o, q) == Ok { CommitKeepsDelegations(w.t, o, q, ds, pick); }
  }

  lemma RecallExclusive(t: Tables, p: Path, except: Option<ClientId>)
    requires DelegationsOk(t.s.opens, t.s.delegs) && Owned(t)
    ensures var t' := Recall(t, p, except).0;
            DelegationsOk(t'.s.opens, t'.s.delegs) && Owned(t') && t'.cl == t.cl
  {
    RecallClaims(t, p, except);
    ClaimsKeepDelegations(t.s, Recall(t, p, except).0.s);
    OwnedKept(t, Recall(t, p, except).0);
  }

  lemma BeginPhase(w: World, o: Owner, p: Path, access: Bits, deny: Bits, trunc: bool, pick: Other)
    requires w.pending == map[]
    ensures var w1 := Next(w, OpenBegin(o, p, access, deny, trunc, pick));
            var q := OpenCheck(w.t.s, o, p, access, deny, trunc, pick).0;
            && w1.t.s == w.t.s && w1.t.cl.confirmed == w.t.cl.confirmed
            && (w1.pending == map[] ||
                (q.Some? && w1.pending == map[o := q.value] && o.client in w.t.cl.confirmed))
  {
    TouchConfirmed(w.t, o.client);
  }

  lemma ClearShape(w: World, o: Owner, q: Pending)
    requires w.pending == map[o := q] && !q.cleared
    ensures var w' := Next(w, OpenRecall(o));
            var (t', st) := Recall(w.t, q.path, Some(o.client));
            || (!NeedsRecall(q) && w'.t == w.t && w'.pending == map[o := q.(cleared := true)])
            || (st == Ok && w'.t == t' && w'.pending == map[o := q.(cleared := true)])
            || (w'.t == t' && w'.pending == map[])
  {
    assert w.pending[o := q.(cleared := true)] == map[o := q.(cleared := true)];
    assert w.pending - {o} == map[];
  }

  lemma RecallPhase(w: World, o: Owner, q: Pending)
    requires w.pending == map[o := q] && !q.cleared
    requires DelegationsOk(w.t.s.opens, w.t.s.delegs) && Owned(w.t)
    requires !NeedsRecall(q) ==> !Falsifies(w.t.s, o, q)
    requires Recall(w.t, q.path, Some(o.client)).1 == Ok ==>
      !Falsifies(Recall(w.t, q.path, Some(o.client)).0.s, o, q)
    ensures var w' := Next(w, OpenRecall(o));
            && DelegationsOk(w'.t.s.opens, w'.t.s.delegs) && Owned(w'.t) && w'.t.cl == w.t.cl
            && (w'.pending == map[] ||
                (w'.pending == map[o := q.(cleared := true)] && !Falsifies(w'.t.s, o, q.(cleared := true))))
  {
    ClearShape(w, o, q);
    RecallExclusive(w.t, q.path, Some(o.client));
  }

  lemma CheckedPath(s: State, o: Owner, p: Path, access: Bits, deny: Bits, trunc: bool, pick: Other)
    ensures var q := OpenCheck(s, o, p, access, deny, trunc, pick).0;
            q.Some? ==> q.value.path == p && !q.value.cleared
  {}

  lemma EndDisabled(w: World, o: Owner, ds: bool, pick: Other)
    requires w.pending == map[]
    ensures Next(w, OpenRecall(o)) == w && Next(w, OpenEnd(o, ds, pick)) == w
  {}

  /** The recall and commit phases of a checked OPEN that is alone in flight. */
  lemma AfterCheck(w: World, o: Owner, q: Pending, ds: bool, pick: Other)
    requires w.pending == map[o := q] && !q.cleared && IdsOk(w.t.s) && ClosedOk(w.t.s) && o.client in w.t.cl.confirmed
    requires DelegationsOk(w.t.s.opens, w.t.s.delegs) && Owned(w.t)
    requires !NeedsRecall(q) ==> !Falsifies(w.t.s, o, q)
    requires Recall(w.t, q.path, Some(o.client)).1 == Ok ==>
      !Falsifies(Recall(w.t, q.path, Some(o.client)).0.s, o, q)
    ensures Exclusive(Next(Next(w, OpenRecall(o)), OpenEnd(o, ds, pick)))
  {
    RecallPhase(w, o, q);
    StepIds(w, OpenRecall(o));
    var w2 := Next(w, OpenRecall(o));
    if w2.pending == map[] {
      EndDisabled(w2, o, ds, pick);
    } else {
      EndExclusive(w2, o, q.(cleared := true), ds, pick);
    }
  }

  lemma WholeOpenExclusive(w: World, o: Owner, p: Path, access: Bits, deny: Bits, trunc: bool, ds: bool, pick: Other)
    requires Tidy(w.t.s) && Exclusive(w)
    ensures Exclusive(ApplyOp(w, WholeOpen(o, p, access, deny, trunc, ds, pick)))
  {
    var w1 := Next(w, OpenBegin(o, p, access, deny, trunc, pick));
    BeginPhase(w, o, p, access, deny, trunc, pick);
    CheckedPath(w.t.s, o, p, access, deny, trunc, pick);
    assert Owned(w1.t);
    if w1.pending == map[] {
      EndDisabled(w1, o, ds, pick);
    } else {
      ClearedFalsifiesNone(w.t.s, w1.t, o, p, access, deny, trunc, pick);
      AfterCheck(w1, o, w1.pending[o], ds, pick);
    }
  }

  lemma StepIds(w: World, step: Step)
    requires IdsOk(w.t.s) && ClosedOk(w.t.s) && step.OpenRecall?
    ensures IdsOk(Next(w, step).t.s)
  {
    if Enabled(w, step) {
      var p, except := w.pending[step.o].path, Some(step.o.client);
      var gone := ForfeitOf(w.t.s, Disturbed(w.t.s, p, except), w.t.now, w.t.recallWait);
      RevokeIds(w.t.s, gone, w.t.now);
      MarkIds(Revoke(w.t.s, gone, w.t.now), RecallJobs(w.t.s, p, except), w.t.now);
    }
  }

  lemma OpKept(w: World, op: Op)
    requires Kept(w)
    ensures Kept(ApplyOp(w, op))
  {
    match op {
      case One(step) => StepKept(w, step);
      case WholeOpen(o, p, access, deny, trunc, ds, pick) =>
        var w1 := Next(w, OpenBegin(o, p, access, deny, trunc, pick));
        StepKept(w, OpenBegin(o, p, access, deny, trunc, pick));
        StepKept(w1, OpenRecall(o));
        StepKept(Next(w1, OpenRecall(o)), OpenEnd(o, ds, pick));
      case WholeRename(from, to) => RenamingKept(w, from, to);
    }
  }

  lemma RecallForKept(w: World, p: Path)
    requires Kept(w)
    ensures Kept(RecallFor(w, p, None))
  {
    RecallTidy(w.t, p, None);
    RecallMarks(w.t, p, None, w.recalls);
  }

  lemma RenamingKept(w: World, from: Path, to: Path)
    requires Kept(w)
    ensures Kept(Renaming(w, from, to))
  {
    if Incomparable(from, to) {
      var w1 := RecallFor(w, from, None);
      RecallForKept(w, from);
      if Recall(w.t, from, None).1 == Ok {
        var w2 := RecallFor(w1, to, None);
        RecallForKept(w1, to);
        StepKept(w2, RenameTo(from, to));
      }
    }
  }

  lemma OpExclusive(w: World, op: Op)
    requires Tidy(w.t.s) && Exclusive(w) && IsWhole(op) && SparesDelegs(w, op)
    ensures Exclusive(ApplyOp(w, op))
  {
    match op {
      case One(step) => OneExclusive(w, step);
      case WholeOpen(o, p, access, deny, trunc, ds, pick) => WholeOpenExclusive(w, o, p, access, deny, trunc, ds, pick);
      case WholeRename(from, to) => RenamingExclusive(w, from, to);
    }
  }

  /** Whole operations, whose renames spare delegations. */
  ghost predicate Whole(w: World, ops: seq<Op>) {
    forall i | 0 <= i < |ops| :: IsWhole(ops[i]) && SparesDelegs(RunOps(w, ops[..i]), ops[i])
  }

  lemma WholePrefix(w: World, ops: seq<Op>)
    requires ops != [] && Whole(w, ops)
    ensures Whole(w, ops[..|ops|-1]) && IsWhole(ops[|ops|-1]) && SparesDelegs(RunOps(w, ops[..|ops|-1]), ops[|ops|-1])
  {
    var most := ops[..|ops|-1];
    forall i | 0 <= i < |most| ensures IsWhole(most[i]) && SparesDelegs(RunOps(w, most[..i]), most[i]) {
      assert most[..i] == ops[..i] && most[i] == ops[i];
    }
  }

  lemma {:induction false} OpsExclusive(w: World, ops: seq<Op>)
    requires Kept(w) && Exclusive(w) && Whole(w, ops)
    ensures Kept(RunOps(w, ops)) && Exclusive(RunOps(w, ops))
  {
    if ops != [] {
      WholePrefix(w, ops);
      var mid := RunOps(w, ops[..|ops|-1]);
      OpsExclusive(w, ops[..|ops|-1]);
      OpKept(mid, ops[|ops|-1]);
      OpExclusive(mid, ops[|ops|-1]);
    }
  }

  /**
   With every operation one step, in every reachable state no client holds a
   delegation on a path that another client has open for write or deny-read, and
   every open and delegation belongs to a confirmed client.
   */
  lemma WholeRunsExclusive(lease: nat, wait: nat, ops: seq<Op>)
    requires Whole(Start(lease, wait), ops)
    ensures var t := RunOps(Start(lease, wait), ops).t; DelegationsOk(t.s.opens, t.s.delegs) && Owned(t)
  {
    OpsExclusive(Start(lease, wait), ops);
  }

  // ---------- recall discipline ----------

  /** A delegation is granted only where none is being recalled and the client has none. */
  lemma NoGrantDuringRecall(w: World, step: Step, d: Other, e: Other)
    requires Kept(w)
    requires d in Next(w, step).t.s.delegs && d !in w.t.s.delegs
    requires e in w.t.s.delegs && w.t.s.delegs[e].path == Next(w, step).t.s.delegs[d].path
    ensures !w.t.s.delegs[e].recalling && w.t.s.delegs[e].client != Next(w, step).t.s.delegs[d].client
  {
    match step {
      case Plain(op) => PlainClaims(w.t, op);
      case Sequenced(x, n, p, op) => if Enabled(w, step) { SeqClaims(w.t, x, n, p, op); }
      case OpenEnd(o, ds, pick) => PlaceOpenEvolves(w.t.s, o, w.pending[o], pick);
      case _ =>
    }
  }

  /** A delegation that was asked back at time `t0` or earlier stays asked back. */
  ghost predicate AskedBack(s: State, d: Other, t0: nat) {
    0 < d <= s.next && (d in s.delegs ==> s.delegs[d].recalling && s.delegs[d].recallAt <= t0)
  }

  lemma AskedBackKept(s: State, s': State, d: Other, t0: nat)
    requires AskedBack(s, d, t0) && Evolves(s, s')
    ensures AskedBack(s', d, t0)
  {}

  lemma PlainTime(t: Tables, op: PlainOp)
    ensures ApplyPlain(t, op).recallWait == t.recallWait && ApplyPlain(t, op).now >= t.now
  {}

  lemma SeqTime(t: Tables, x: Other, n: nat, p: Path, op: SeqOp)
    requires WellFormed(t.s, op)
    ensures ApplySeq(t, x, n, p, op).recallWait == t.recallWait && ApplySeq(t, x, n, p, op).now == t.now
  {
    SeqHasEffect(t, x, n, p, op);
  }

  lemma StepTime(w: World, step: Step)
    ensures Next(w, step).t.recallWait == w.t.recallWait && Next(w, step).t.now >= w.t.now
  {
    if Enabled(w, step) {
      match step {
        case Plain(op) => PlainTime(w.t, op);
        case Sequenced(x, n, p, op) => SeqTime(w.t, x, n, p, op);
        case _ =>
      }
    }
  }

  lemma {:induction false} RunTime(w: World, steps: seq<Step>)
    ensures Run(w, steps).t.recallWait == w.t.recallWait && Run(w, steps).t.now >= w.t.now
  {
    if steps != [] {
      RunTime(w, steps[..|steps|-1]);
      StepTime(Run(w, steps[..|steps|-1]), steps[|steps|-1]);
    }
  }

  /** Marks made before now lie in the past. */
  ghost predicate MarksPast(t: Tables) {
    forall d :: d in t.s.delegs && t.s.delegs[d].recalling ==> t.s.delegs[d].recallAt <= t.now
  }

  /** Recall marks are old ones or are made now. */
  ghost predicate MarksFrom(s: State, s': State, now: nat) {
    forall d :: d in s'.delegs && s'.delegs[d].recalling ==>
      s'.delegs[d].recallAt == now ||
      (d in s.delegs && s.delegs[d].recalling && s'.delegs[d].recallAt == s.delegs[d].recallAt)
  }

  lemma PlainMarks(t: Tables, op: PlainOp)
    ensures MarksFrom(t.s, ApplyPlain(t, op).s, t.now)
  {}

  lemma CommitMarks(t: Tables, o: Owner, q: Pending, ds: bool, pick: Other)
    ensures MarksFrom(t.s, OpenCommit(t, o, q, ds, pick).0.s, t.now)
  {
    if OpenStatus(t.s, o, q) == Ok { CommitShape(t, o, q, ds, pick); }
  }

  lemma DisturbMarks(t: Tables, p: Path, except: Option<ClientId>)
    ensures MarksFrom(t.s, Recall(t, p, except).0.s, t.now)
  {}

  lemma SeqMarks(t: Tables, x: Other, n: nat, p: Path, op: SeqOp)
    requires WellFormed(t.s, op)
    ensures MarksFrom(t.s, ApplySeq(t, x, n, p, op).s, t.now)
  {
    SeqHasEffect(t, x, n, p, op);
    EffectMarks(t, ApplySeq(t, x, n, p, op), x);
  }

  lemma EffectMarks(t: Tables, t': Tables, x: Other)
    requires SeqEffect(t, t', x)
    ensures MarksFrom(t.s, t'.s, t.now)
  {
    EffectDelegs(t, t', x);
  }

  lemma EffectDelegs(t: Tables, t': Tables, x: Other)
    requires SeqEffect(t, t', x)
    ensures t'.s.delegs == t.s.delegs
  {}

  lemma MarksStill(t: Tables, t': Tables)
    requires MarksPast(t) && MarksFrom(t.s, t'.s, t.now) && t'.now >= t.now
    ensures MarksPast(t')
  {}

  lemma StepMarks(w: World, step: Step)
    requires MarksPast(w.t)
    ensures MarksPast(Next(w, step).t)
  {
    StepTime(w, step);
    StepMarksFrom(w, step);
    MarksStill(w.t, Next(w, step).t);
  }

  lemma StepMarksFrom(w: World, step: Step)
    ensures MarksFrom(w.t.s, Next(w, step).t.s, w.t.now)
  {
    if Enabled(w, step) {
      match step {
        case Plain(op) => PlainMarks(w.t, op);
        case Sequenced(x, n, p, op) => SeqMarks(w.t, x, n, p, op);
        case OpenEnd(o, ds, pick) => CommitMarks(w.t, o, w.pending[o], ds, pick);
        case OpenRecall(o) => DisturbMarks(w.t, w.pending[o].path, Some(o.client));
        case Disturb(p, except) => DisturbMarks(w.t, p, except);
        case RenameTo(_, _) =>
        case OpenBegin(o, _, _, _, _, _) => TouchConfirmed(w.t, o.client);
        case OpenAbort(_) =>
      }
    }
  }

  lemma {:induction false} RunMarks(w: World, steps: seq<Step>)
    requires MarksPast(w.t)
    ensures MarksPast(Run(w, steps).t)
  {
    if steps != [] {
      RunMarks(w, steps[..|steps|-1]);
      StepMarks(Run(w, steps[..|steps|-1]), steps[|steps|-1]);
    }
  }

  lemma DisturbAsksBack(t: Tables, p: Path, except: Option<ClientId>, d: Other)
    requires IdsOk(t.s) && MarksPast(t) && d in Disturbed(t.s, p, except)
    ensures AskedBack(Recall(t, p, except).0.s, d, t.now)
  {}

  lemma AskedBackDoesNotBlock(t: Tables, p: Path, except: Option<ClientId>, d: Other, t0: nat)
    requires AskedBack(t.s, d, t0) && t0 + t.recallWait <= t.now
    ensures d !in Blockers(t, p, except)
  {}

  /** The step asks back what stands in the way on `p`: a conflicting request, or an OPEN before its side effects. */
  ghost predicate Asks(w: World, step: Step, p: Path, except: Option<ClientId>) {
    match step
    case Disturb(path, e) => path == p && e == except
    case OpenRecall(o) =>
      && o in w.pending && !w.pending[o].cleared && NeedsRecall(w.pending[o])
      && p == w.pending[o].path && except == Some(o.client)
    case _ => false
  }

  lemma AskingRecalls(w: World, step: Step, p: Path, except: Option<ClientId>)
    requires Asks(w, step, p, except)
    ensures Next(w, step).t == Recall(w.t, p, except).0
  {}

  lemma RetryFrom(w: World, w1: World, p: Path, except: Option<ClientId>, steps: seq<Step>, d: Other)
    requires IdsOk(w.t.s) && MarksPast(w.t) && d in Disturbed(w.t.s, p, except) && w1.t == Recall(w.t, p, except).0
    ensures var w2 := Run(w1, steps); w.t.now + w.t.recallWait <= w2.t.now ==> d !in Blockers(w2.t, p, except)
  {
    var w2 := Run(w1, steps);
    RunTime(w1, steps);
    DisturbAsksBack(w.t, p, except, d);
    RunEvolves(w1, steps);
    AskedBackKept(w1.t.s, w2.t.s, d, w.t.now);
    if w.t.now + w.t.recallWait <= w2.t.now { AskedBackDoesNotBlock(w2.t, p, except, d, w.t.now); }
  }

  /**
   A request, or an OPEN, retried at least the recall timeout after its first
   NFS4ERR_DELAY is not delayed by any delegation that was on the path at that first
   try, whatever happened before and in between.
   */
  lemma RetryNotDelayed(lease: nat, wait: nat, before: seq<Step>, first: Step, p: Path, except: Option<ClientId>,
                        steps: seq<Step>, d: Other)
    requires Asks(Run(Start(lease, wait), before), first, p, except)
    requires d in Disturbed(Run(Start(lease, wait), before).t.s, p, except)
    ensures var w := Run(Start(lease, wait), before);
            var w2 := Run(Next(w, first), steps);
            w.t.now + wait <= w2.t.now ==> d !in Blockers(w2.t, p, except)
  {
    var w := Run(Start(lease, wait), before);
    RunKept(Start(lease, wait), before);
    RunMarks(Start(lease, wait), before);
    RunTime(Start(lease, wait), before);
    AskingRecalls(w, first, p, except);
    RetryFrom(w, Next(w, first), p, except, steps, d);
  }
}
