/**
 The NFSv4.0 state tables and what each operation does to them
 (nfs4/state.go, ops_state.go, ops_lock.go, lease.go, callback.go).

 This is the plain form: no per-path index and no counters.  Every lookup is a
 search of the whole table.  `StateStore` holds the indexed form and is proved to
 compute exactly these functions.

 A stateid's `other` field is its counter value, an object pointer is the key of
 its table, and time is a number.
 */
module NfsTables {
  import opened LockRanges
  import opened Words

  type Other = nat
  type ClientId = nat
  type Path = string

  datatype Option<+T> = None | Some(value: T)

  datatype OwnerKind = OpenOwner | LockOwner

  /** An open-owner or lock-owner: a client's name for one stream of requests. */
  datatype Owner = Owner(kind: OwnerKind, client: ClientId, key: string)

  /** The READ and WRITE bits of a share_access or share_deny word. */
  datatype Bits = Bits(r: bool, w: bool) {
    predicate Meets(that: Bits) { (r && that.r) || (w && that.w) }
    predicate Within(that: Bits) { (r ==> that.r) && (w ==> that.w) }
    function Union(that: Bits): Bits { Bits(r || that.r, w || that.w) }
    predicate Allows(write: bool) { if write then w else r }
  }

  datatype Open = Open(seqid: nat, owner: Owner, path: Path, access: Bits, deny: Bits)

  datatype Lock = Lock(seqid: nat, client: ClientId, owner: Owner, open: Other, path: Path,
                       ranges: seq<LockRange>)

  datatype Deleg = Deleg(seqid: nat, client: ClientId, path: Path, recalling: bool, recallAt: nat)

  datatype Client = Client(ownerId: string, principal: string, cbUp: bool, lastRenew: nat)

  /** Client records; `all` is every client object made so far. */
  datatype Clients = Clients(
    next: ClientId, all: map<ClientId, Client>,
    confirmed: set<ClientId>, unconfirmed: set<ClientId>,
    byOwner: map<string, ClientId>, expiredIds: map<ClientId, nat>)

  /**
   Stateid tables.  `okOwners` are the open-owners that did OPEN_CONFIRM, and
   `closed` is the newest closed stateid kept for each open-owner.
   */
  datatype State = State(
    next: Other, okOwners: set<Owner>,
    opens: map<Other, Open>, locks: map<Other, Lock>, delegs: map<Other, Deleg>,
    closed: map<Other, Owner>, revoked: map<Other, nat>, expired: map<Other, nat>)

  datatype Tables = Tables(now: nat, lease: nat, recallWait: nat, cl: Clients, s: State)

  datatype Status =
    | Ok | Inval | BadStateid | OldStateid | Expired | AdminRevoked | StaleClientid | ClidInUse
    | ShareDenied | Resource | Delay | LocksHeld | OpenMode | Denied

  const MAX_OPENS_PER_CLIENT: nat := 4096
  const MAX_DELEGATIONS_PER_CLIENT: nat := 4096
  const MAX_LOCK_RANGES: nat := 4096

  function Init(lease: nat, recallWait: nat): Tables {
    Tables(0, lease, recallWait,
           Clients(0, map[], {}, {}, map[], map[]),
           State(0, {}, map[], map[], map[], map[], map[], map[]))
  }

  // ---------- resolving stateids ----------

  ghost predicate Live(s: State, x: Other) {
    x in s.opens || x in s.locks || x in s.delegs
  }

  function CheckSeq(seqid: nat, held: nat, pathOk: bool): Status {
    if seqid < held then OldStateid
    else if seqid > held || !pathOk then BadStateid
    else Ok
  }

  function ResolveOpen(s: State, x: Other, seqid: nat, p: Path): Status {
    if x in s.expired then Expired
    else if x !in s.opens then BadStateid
    else
      var o := s.opens[x];
      var st := CheckSeq(seqid, o.seqid, o.path == p);
      if st != Ok then st else if o.owner !in s.okOwners then BadStateid else Ok
  }

  function ResolveLock(s: State, x: Other, seqid: nat, p: Path): Status {
    if x in s.expired then Expired
    else if x !in s.locks then BadStateid
    else CheckSeq(seqid, s.locks[x].seqid, s.locks[x].path == p)
  }

  function ResolveDeleg(s: State, x: Other, seqid: nat, p: Path): Status {
    if x in s.expired then Expired
    else if x in s.revoked then AdminRevoked
    else if x !in s.delegs then BadStateid
    else CheckSeq(seqid, s.delegs[x].seqid, s.delegs[x].path == p)
  }

  /** READ, WRITE and SETATTR take an open, lock or delegation stateid. */
  function ResolveIO(s: State, x: Other, seqid: nat, p: Path): Status {
    if x in s.expired then Expired
    else if x in s.revoked then AdminRevoked
    else if x in s.opens then ResolveOpen(s, x, seqid, p)
    else if x in s.locks then CheckSeq(seqid, s.locks[x].seqid, s.locks[x].path == p)
    else if x in s.delegs then CheckSeq(seqid, s.delegs[x].seqid, s.delegs[x].path == p)
    else BadStateid
  }

  /** The owner whose sequence stream a request on `x` belongs to. */
  function SeqOwner(s: State, x: Other): Option<Owner> {
    if x in s.opens then Some(s.opens[x].owner)
    else if x in s.locks then Some(s.locks[x].owner)
    else if x in s.closed then Some(s.closed[x])
    else None
  }

  // ---------- clients ----------

  function Touch(t: Tables, c: ClientId): Tables {
    if c in t.cl.all then t.(cl := t.cl.(all := t.cl.all[c := t.cl.all[c].(lastRenew := t.now)])) else t
  }

  /** Every sequenced request on a live or newly closed stateid renews its client. */
  function TouchOwner(t: Tables, x: Other): Tables {
    if x in t.s.expired then t
    else match SeqOwner(t.s, x)
      case Some(o) => Touch(t, o.client)
      case None => t
  }

  /** The given clients without those of one owner string. */
  function NotOwnedBy(cl: Clients, ids: set<ClientId>, ownerId: string): set<ClientId> {
    set c | c in ids && (c in cl.all ==> cl.all[c].ownerId != ownerId)
  }

  function SetClientId(t: Tables, ownerId: string, principal: string): (Tables, Status) {
    var cl := t.cl;
    if ownerId in cl.byOwner && cl.byOwner[ownerId] in cl.all
       && cl.all[cl.byOwner[ownerId]].principal != principal then (t, ClidInUse)
    else
      var id := cl.next + 1;
      (t.(cl := cl.(next := id, unconfirmed := NotOwnedBy(cl, cl.unconfirmed, ownerId) + {id},
                    all := cl.all[id := Client(ownerId, principal, false, t.now)])), Ok)
  }

  function WithoutClients(cl: Clients, dead: set<ClientId>): Clients {
    cl.(confirmed := cl.confirmed - dead,
        byOwner := map k | k in cl.byOwner && cl.byOwner[k] !in dead :: cl.byOwner[k])
  }

  function OpensNotOf(opens: map<Other, Open>, dead: set<ClientId>): map<Other, Open> {
    map x | x in opens && opens[x].owner.client !in dead :: opens[x]
  }

  function LocksNotOf(locks: map<Other, Lock>, dead: set<ClientId>): map<Other, Lock> {
    map x | x in locks && locks[x].client !in dead :: locks[x]
  }

  function DelegsNotOf(delegs: map<Other, Deleg>, dead: set<ClientId>): map<Other, Deleg> {
    map x | x in delegs && delegs[x].client !in dead :: delegs[x]
  }

  function OwnersNotOf(owners: map<Other, Owner>, dead: set<ClientId>): map<Other, Owner> {
    map x | x in owners && owners[x].client !in dead :: owners[x]
  }

  function WithoutStateOf(s: State, dead: set<ClientId>): State {
    s.(opens := OpensNotOf(s.opens, dead), locks := LocksNotOf(s.locks, dead),
       delegs := DelegsNotOf(s.delegs, dead), closed := OwnersNotOf(s.closed, dead))
  }

  /** Drops the given clients with every open, lock and delegation they hold. */
  function Release(t: Tables, dead: set<ClientId>): Tables {
    t.(cl := WithoutClients(t.cl, dead), s := WithoutStateOf(t.s, dead))
  }

  function Confirmed(cl: Clients, id: ClientId, owner: string): Clients {
    cl.(unconfirmed := cl.unconfirmed - {id}, confirmed := cl.confirmed + {id}, byOwner := cl.byOwner[owner := id])
  }

  /** SETCLIENTID_CONFIRM: a rebooted client's new record replaces the old one. */
  function ConfirmClient(t: Tables, id: ClientId, verifierOk: bool): (Tables, Status) {
    if id in t.cl.unconfirmed && id in t.cl.all && verifierOk then
      var owner := t.cl.all[id].ownerId;
      var t1 := if owner in t.cl.byOwner then Release(t, {t.cl.byOwner[owner]}) else t;
      (Touch(t1.(cl := Confirmed(t1.cl, id, owner)), id), Ok)
    else if id in t.cl.confirmed && verifierOk then (Touch(t, id), Ok)
    else (t, StaleClientid)
  }

  function ClientStatus(cl: Clients, id: ClientId): Status {
    if id in cl.confirmed then Ok else if id in cl.expiredIds then Expired else StaleClientid
  }

  function Renew(t: Tables, id: ClientId): (Tables, Status) {
    if id in t.cl.confirmed then (Touch(t, id), Ok) else (t, ClientStatus(t.cl, id))
  }

  function ProbeCallback(t: Tables, id: ClientId): Tables {
    if id in t.cl.confirmed && id in t.cl.all
    then t.(cl := t.cl.(all := t.cl.all[id := t.cl.all[id].(cbUp := true)])) else t
  }

  // ---------- share reservations and OPEN ----------

  predicate Clash(access: Bits, deny: Bits, held: Open) {
    access.Meets(held.deny) || deny.Meets(held.access)
  }

  ghost predicate ShareConflict(s: State, p: Path, o: Owner, access: Bits, deny: Bits) {
    exists x :: x in s.opens && s.opens[x].path == p && s.opens[x].owner != o && Clash(access, deny, s.opens[x])
  }

  ghost predicate IsOpenOf(s: State, p: Path, o: Owner, x: Other) {
    x in s.opens && s.opens[x].path == p && s.opens[x].owner == o
  }

  ghost predicate HasOpen(s: State, p: Path, o: Owner) { exists x :: IsOpenOf(s, p, o, x) }

  /**
   An open of `o` on the path.  A rename can give an owner several; which of them is found
   depends on the order of a list, so that is the caller's `pick`.
   */
  ghost function FindOpen(s: State, p: Path, o: Owner, pick: Other): (r: Option<Other>)
    ensures r.Some? ==> IsOpenOf(s, p, o, r.value)
    ensures r.None? <==> !HasOpen(s, p, o)
  {
    if IsOpenOf(s, p, o, pick) then Some(pick)
    else if HasOpen(s, p, o) then var x :| IsOpenOf(s, p, o, x); Some(x)
    else None
  }

  function OpensOf(s: State, c: ClientId): set<Other> {
    set x | x in s.opens && s.opens[x].owner.client == c
  }

  function DelegsOf(s: State, c: ClientId): set<Other> {
    set x | x in s.delegs && s.delegs[x].client == c
  }

  /** An OPEN request between its check and its commit. */
  datatype Pending = Pending(path: Path, access: Bits, deny: Bits, truncating: bool,
                             unionAccess: Bits, unionDeny: Bits, cleared: bool)

  /** OPEN's first critical section: fold in what the owner already holds, test the shares. */
  ghost function OpenCheck(s: State, o: Owner, p: Path, access: Bits, deny: Bits, truncating: bool, pick: Other)
    : (Option<Pending>, Status)
  {
    if access == Bits(false, false) then (None, Inval)
    else
      var held := FindOpen(s, p, o, pick);
      var ua := if held.Some? then access.Union(s.opens[held.value].access) else access;
      var ud := if held.Some? then deny.Union(s.opens[held.value].deny) else deny;
      if ShareConflict(s, p, o, ua, ud) then (None, ShareDenied)
      else (Some(Pending(p, access, deny, truncating, ua, ud, false)), Ok)
  }

  /** Whether the request recalls other clients' delegations before its side effects. */
  predicate NeedsRecall(q: Pending) {
    q.access.w || q.deny.r || q.truncating
  }

  ghost predicate CanGrant(cl: Clients, s: State, p: Path, o: Owner, access: Bits) {
    && o.client in cl.all && cl.all[o.client].cbUp
    && o in s.okOwners
    && access == Bits(true, false)
    && |DelegsOf(s, o.client)| < MAX_DELEGATIONS_PER_CLIENT
    && (forall x :: x in s.opens && s.opens[x].path == p && s.opens[x].owner.client != o.client
          ==> !s.opens[x].access.w && !s.opens[x].deny.r)
    && (forall d :: d in s.delegs && s.delegs[d].path == p ==> s.delegs[d].client != o.client && !s.delegs[d].recalling)
  }

  function WithDeleg(s: State, c: ClientId, p: Path): State {
    s.(next := s.next + 1, delegs := s.delegs[s.next + 1 := Deleg(1, c, p, false, 0)])
  }

  ghost function Grant(cl: Clients, s: State, p: Path, o: Owner, access: Bits): State {
    if CanGrant(cl, s, p, o, access) then WithDeleg(s, o.client, p) else s
  }

  function WithOpen(s: State, o: Owner, q: Pending): State {
    s.(next := s.next + 1,
       opens := s.opens[s.next + 1 := Open(1, o, q.path, q.unionAccess, q.unionDeny)])
  }

  function WithShares(s: State, x: Other, access: Bits, deny: Bits): State
    requires x in s.opens
  {
    s.(opens := s.opens[x := s.opens[x].(seqid := Inc(s.opens[x].seqid), access := access, deny := deny)])
  }

  /** The commit's effect on the open table: a new open, or the owner's open upgraded. */
  ghost function PlaceOpen(s: State, o: Owner, q: Pending, pick: Other): State {
    match FindOpen(s, q.path, o, pick)
    case None => WithOpen(s, o, q)
    case Some(x) => WithShares(s, x, q.unionAccess, q.unionDeny)
  }

  ghost function OpenStatus(s: State, o: Owner, q: Pending): Status {
    if ShareConflict(s, q.path, o, q.unionAccess, q.unionDeny) then ShareDenied
    else if !HasOpen(s, q.path, o) && |OpensOf(s, o.client)| >= MAX_OPENS_PER_CLIENT then Resource
    else Ok
  }

  /** OPEN's second critical section: test the shares again, then place the open. */
  ghost function OpenCommit(t: Tables, o: Owner, q: Pending, delegations: bool, pick: Other): (Tables, Status) {
    var st := OpenStatus(t.s, o, q);
    if st != Ok then (t, st)
    else
      var s1 := PlaceOpen(t.s, o, q, pick);
      (Touch(t.(s := if delegations then Grant(t.cl, s1, q.path, o, q.unionAccess) else s1), o.client), Ok)
  }

  function ConfirmStatus(s: State, x: Other, seqid: nat, p: Path): Status {
    if x in s.expired then Expired
    else if x !in s.opens then BadStateid
    else CheckSeq(seqid, s.opens[x].seqid, s.opens[x].path == p)
  }

  ghost function OpenConfirm(t: Tables, x: Other, seqid: nat, p: Path): (Tables, Status) {
    var t1 := TouchOwner(t, x);
    var st := ConfirmStatus(t.s, x, seqid, p);
    if st != Ok then (t1, st)
    else (t1.(s := t.s.(okOwners := t.s.okOwners + {t.s.opens[x].owner})), Ok)
  }

  ghost predicate RangesExceed(rs: seq<LockRange>, access: Bits) {
    exists i :: 0 <= i < |rs| && !access.Allows(rs[i].write)
  }

  ghost predicate LocksBlockDowngrade(s: State, x: Other, access: Bits) {
    exists l :: l in s.locks && s.locks[l].open == x && RangesExceed(s.locks[l].ranges, access)
  }

  ghost function DowngradeStatus(s: State, x: Other, seqid: nat, p: Path, access: Bits, deny: Bits): Status {
    if x in s.expired then Expired
    else if SeqOwner(s, x).None? then BadStateid
    else if access == Bits(false, false) then Inval
    else
      var st := ResolveOpen(s, x, seqid, p);
      if st != Ok then st
      else if !access.Within(s.opens[x].access) || !deny.Within(s.opens[x].deny) then Inval
      else if LocksBlockDowngrade(s, x, access) then LocksHeld
      else Ok
  }

  ghost function OpenDowngrade(t: Tables, x: Other, seqid: nat, p: Path, access: Bits, deny: Bits): (Tables, Status) {
    var t1 := TouchOwner(t, x);
    var st := DowngradeStatus(t.s, x, seqid, p, access, deny);
    if st != Ok then (t1, st) else (t1.(s := WithShares(t.s, x, access, deny)), Ok)
  }

  ghost predicate LocksBlockClose(s: State, x: Other) {
    exists l :: l in s.locks && s.locks[l].open == x && s.locks[l].ranges != []
  }

  ghost function CloseStatus(s: State, x: Other, seqid: nat, p: Path): Status {
    var st := ResolveOpen(s, x, seqid, p);
    if st != Ok then st else if LocksBlockClose(s, x) then LocksHeld else Ok
  }

  function WithoutOpen(s: State, x: Other): State
    requires x in s.opens
  {
    s.(opens := s.opens - {x},
       locks := map l | l in s.locks && s.locks[l].open != x :: s.locks[l],
       closed := (map y | y in s.closed && s.closed[y] != s.opens[x].owner :: s.closed[y])[x := s.opens[x].owner])
  }

  ghost function Close(t: Tables, x: Other, seqid: nat, p: Path): (Tables, Status) {
    var t1 := TouchOwner(t, x);
    var st := CloseStatus(t.s, x, seqid, p);
    if st != Ok then (t1, st) else (t1.(s := WithoutOpen(t.s, x)), Ok)
  }

  // ---------- byte-range locks ----------

  ghost predicate IsLockOf(s: State, p: Path, o: Owner, l: Other) {
    l in s.locks && s.locks[l].path == p && s.locks[l].owner == o
  }

  /** Some range of `held` overlaps `r`, and one of the two is a write lock. */
  ghost predicate RangesConflict(held: seq<LockRange>, r: LockRange) {
    exists i :: 0 <= i < |held| && Overlap(held[i], r) && (held[i].write || r.write)
  }

  ghost predicate LockConflict(s: State, p: Path, o: Owner, r: LockRange) {
    exists l :: l in s.locks && s.locks[l].path == p && s.locks[l].owner != o && RangesConflict(s.locks[l].ranges, r)
  }

  function WithLock(s: State, lo: Owner, x: Other, p: Path, r: LockRange): State {
    s.(next := s.next + 1, locks := s.locks[s.next + 1 := Lock(1, lo.client, lo, x, p, [r])])
  }

  ghost function LockNewStatus(s: State, x: Other, seqid: nat, lo: Owner, p: Path, r: LockRange): Status {
    var st := ResolveOpen(s, x, seqid, p);
    if st != Ok then st
    else if s.opens[x].owner.client != lo.client then BadStateid
    else if !s.opens[x].access.Allows(r.write) then OpenMode
    else if exists l :: IsLockOf(s, p, lo, l) then Inval
    else if LockConflict(s, p, lo, r) then Denied
    else Ok
  }

  /** LOCK by a lock-owner that has no state on the file yet. */
  ghost function LockNew(t: Tables, x: Other, seqid: nat, lo: Owner, p: Path, r: LockRange): (Tables, Status) {
    if x in t.s.expired then (t, Expired)
    else if x !in t.s.opens then (t, BadStateid)
    else
      var t1 := Touch(t, t.s.opens[x].owner.client);
      var cst := ClientStatus(t.cl, lo.client);
      if cst != Ok then (t1, cst)
      else
        var t2 := Touch(t1, lo.client);
        var st := LockNewStatus(t.s, x, seqid, lo, p, r);
        if st != Ok then (t2, st) else (t2.(s := WithLock(t.s, lo, x, p, r)), Ok)
  }

  function WithRanges(s: State, l: Other, ranges: seq<LockRange>): State
    requires l in s.locks
  {
    s.(locks := s.locks[l := s.locks[l].(ranges := ranges, seqid := Inc(s.locks[l].seqid))])
  }

  ghost predicate AllCanonical(s: State) {
    forall l :: l in s.locks ==> Canonical(s.locks[l].ranges)
  }

  ghost function LockMoreStatus(s: State, l: Other, seqid: nat, p: Path, r: LockRange): Status
    requires r.Wf() && AllCanonical(s)
  {
    var st := ResolveLock(s, l, seqid, p);
    if st != Ok then st
    else if s.locks[l].open !in s.opens then BadStateid
    else if !s.opens[s.locks[l].open].access.Allows(r.write) then OpenMode
    else if LockConflict(s, p, s.locks[l].owner, r) then Denied
    else if |Updated(s.locks[l].ranges, r)| > MAX_LOCK_RANGES then Resource
    else Ok
  }

  /** LOCK by a lock-owner that already holds the lock stateid `l`. */
  ghost function LockMore(t: Tables, l: Other, seqid: nat, p: Path, r: LockRange): (Tables, Status)
    requires r.Wf() && AllCanonical(t.s)
  {
    var t1 := TouchOwner(t, l);
    var st := LockMoreStatus(t.s, l, seqid, p, r);
    if st != Ok then (t1, st) else (t1.(s := WithRanges(t.s, l, Updated(t.s.locks[l].ranges, r))), Ok)
  }

  function LockUStatus(s: State, l: Other, seqid: nat, p: Path): Status {
    var st := ResolveLock(s, l, seqid, p);
    if st != Ok then st else if s.locks[l].open !in s.opens then BadStateid else Ok
  }

  ghost function LockU(t: Tables, l: Other, seqid: nat, p: Path, r: LockRange): (Tables, Status)
    requires r.Wf() && AllCanonical(t.s)
  {
    var t1 := TouchOwner(t, l);
    var st := LockUStatus(t.s, l, seqid, p);
    if st != Ok then (t1, st) else (t1.(s := WithRanges(t.s, l, Erased(t.s.locks[l].ranges, r))), Ok)
  }

  function WithoutLocksOf(s: State, lo: Owner): State {
    s.(locks := map l | l in s.locks && s.locks[l].owner != lo :: s.locks[l])
  }

  ghost predicate OwnerHoldsRanges(s: State, lo: Owner) {
    exists l :: l in s.locks && s.locks[l].owner == lo && s.locks[l].ranges != []
  }

  ghost function ReleaseLockOwner(t: Tables, lo: Owner): (Tables, Status) {
    if lo.client !in t.cl.confirmed then (t, ClientStatus(t.cl, lo.client))
    else
      var t1 := Touch(t, lo.client);
      if OwnerHoldsRanges(t.s, lo) then (t1, LocksHeld) else (t1.(s := WithoutLocksOf(t.s, lo)), Ok)
  }

  // ---------- delegations ----------

  function DelegReturn(t: Tables, x: Other, seqid: nat, p: Path): (Tables, Status) {
    var st := ResolveDeleg(t.s, x, seqid, p);
    if st != Ok then (t, st)
    else (Touch(t.(s := t.s.(delegs := t.s.delegs - {x})), t.s.delegs[x].client), Ok)
  }

  /** A recall that has gone unanswered for the recall timeout. */
  predicate Forfeit(now: nat, wait: nat, d: Deleg) {
    d.recalling && d.recallAt + wait <= now
  }

  /** Delegations on `p` that an operation on behalf of `except` makes false. */
  function Disturbed(s: State, p: Path, except: Option<ClientId>): set<Other> {
    set d | d in s.delegs && s.delegs[d].path == p && Some(s.delegs[d].client) != except
  }

  /** Tombstones made at time `now`. */
  function Stamped(xs: set<nat>, now: nat): map<nat, nat> { map x | x in xs :: now }

  function Revoke(s: State, ds: set<Other>, now: nat): State {
    s.(delegs := s.delegs - ds, revoked := s.revoked + Stamped(ds, now))
  }

  /** The recalls that start now. */
  function RecallJobs(s: State, p: Path, except: Option<ClientId>): set<Other> {
    set d | d in Disturbed(s, p, except) && !s.delegs[d].recalling
  }

  function MarkRecalling(s: State, ds: set<Other>, now: nat): State {
    s.(delegs := map d | d in s.delegs ::
         if d in ds then s.delegs[d].(recalling := true, recallAt := now) else s.delegs[d])
  }

  function ForfeitOf(s: State, ds: set<Other>, now: nat, wait: nat): set<Other> {
    set d | d in ds && d in s.delegs && Forfeit(now, wait, s.delegs[d])
  }

  /** Disturbed delegations that are not forfeit yet: the caller must wait for these. */
  function Blockers(t: Tables, p: Path, except: Option<ClientId>): set<Other> {
    Disturbed(t.s, p, except) - ForfeitOf(t.s, Disturbed(t.s, p, except), t.now, t.recallWait)
  }

  /** Revokes what the timeout forfeited, recalls the rest, and asks the caller to wait. */
  function Recall(t: Tables, p: Path, except: Option<ClientId>): (Tables, Status) {
    var gone := ForfeitOf(t.s, Disturbed(t.s, p, except), t.now, t.recallWait);
    (t.(s := MarkRecalling(Revoke(t.s, gone, t.now), RecallJobs(t.s, p, except), t.now)),
     if Blockers(t, p, except) == {} then Ok else Delay)
  }

  // ---------- rename and sweep ----------

  predicate Under(base: Path, p: Path) {
    p == base || base + "/" <= p
  }

  /** Neither name lies under the other. */
  predicate Incomparable(from: Path, to: Path) {
    !Under(from, to) && !Under(to, from)
  }

  function Moved(from: Path, to: Path, p: Path): Path {
    if p == from then to else if from + "/" <= p then to + p[|from|..] else p
  }

  function MovedOpens(opens: map<Other, Open>, from: Path, to: Path): map<Other, Open> {
    map x | x in opens :: opens[x].(path := Moved(from, to, opens[x].path))
  }

  function MovedLocks(locks: map<Other, Lock>, from: Path, to: Path): map<Other, Lock> {
    map x | x in locks :: locks[x].(path := Moved(from, to, locks[x].path))
  }

  function MovedDelegs(delegs: map<Other, Deleg>, from: Path, to: Path): map<Other, Deleg> {
    map x | x in delegs :: delegs[x].(path := Moved(from, to, delegs[x].path))
  }

  function Rename(s: State, from: Path, to: Path): State {
    s.(opens := MovedOpens(s.opens, from, to), locks := MovedLocks(s.locks, from, to),
       delegs := MovedDelegs(s.delegs, from, to))
  }

  predicate Elapsed(since: nat, lease: nat, now: nat) { since + lease <= now }

  function LapsedClients(t: Tables): set<ClientId> {
    set c | c in t.cl.confirmed && c in t.cl.all && Elapsed(t.cl.all[c].lastRenew, t.lease, t.now)
  }

  /** The stateids of the given clients that are tombstoned when they are released. */
  function StateidsOf(s: State, dead: set<ClientId>): set<Other> {
    OpensHeldBy(s.opens, dead) + LocksHeldBy(s.locks, dead) + DelegsHeldBy(s.delegs, dead) + ClosedBy(s.closed, dead)
  }

  function OpensHeldBy(opens: map<Other, Open>, dead: set<ClientId>): set<Other> {
    set x | x in opens && opens[x].owner.client in dead
  }

  function LocksHeldBy(locks: map<Other, Lock>, dead: set<ClientId>): set<Other> {
    set x | x in locks && locks[x].owner.client in dead
  }

  function DelegsHeldBy(delegs: map<Other, Deleg>, dead: set<ClientId>): set<Other> {
    set x | x in delegs && delegs[x].client in dead
  }

  function ClosedBy(closed: map<Other, Owner>, dead: set<ClientId>): set<Other> {
    set x | x in closed && closed[x].client in dead
  }

  function SweptTombs(s: State, lease: nat, now: nat): State {
    s.(expired := map x | x in s.expired && !Elapsed(s.expired[x], lease, now) :: s.expired[x],
       revoked := map x | x in s.revoked && !Elapsed(s.revoked[x], lease, now) :: s.revoked[x])
  }

  function SweptClients(cl: Clients, lease: nat, now: nat): Clients {
    cl.(expiredIds := map c | c in cl.expiredIds && !Elapsed(cl.expiredIds[c], lease, now) :: cl.expiredIds[c],
        unconfirmed := set c | c in cl.unconfirmed && !(c in cl.all && Elapsed(cl.all[c].lastRenew, lease, now)))
  }

  function Tombstoned(s: State, dead: set<ClientId>, now: nat): State {
    s.(expired := s.expired + Stamped(StateidsOf(s, dead), now))
  }

  function ExpireClients(t: Tables, dead: set<ClientId>): Tables {
    t.(cl := WithoutClients(t.cl.(expiredIds := t.cl.expiredIds + Stamped(dead, t.now)), dead),
       s := WithoutStateOf(Tombstoned(t.s, dead, t.now), dead))
  }

  function Sweep(t: Tables): Tables {
    var s1 := SweptTombs(t.s, t.lease, t.now);
    var s2 := Revoke(s1, ForfeitOf(s1, s1.delegs.Keys, t.now, t.recallWait), t.now);
    var t2 := t.(cl := SweptClients(t.cl, t.lease, t.now), s := s2);
    ExpireClients(t2, LapsedClients(t2))
  }
}
