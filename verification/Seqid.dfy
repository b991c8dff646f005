/**
 The one-slot replay cache of an NFSv4.0 owner (nfs4/ops_state.go, withSeqid, and
 nfs4/ops_lock.go, withTwoSeqids; section 9.1.7 of RFC 7530).

 The body of an operation is a parameter: `outcome` is the reply it would produce
 if it were executed now.
 */
module Seqid {
  import NfsTables
  import opened Words

  const OP_LOCK: nat := 12
  const OP_OPEN: nat := 18

  datatype Stat = Ok | BadSeqid | StaleClientid | StaleStateid | BadStateid | BadXdr
                | Resource | NoFilehandle | Moved | Other(code: nat)

  /** A result: its status word, the rest of its encoding, and the current filehandle an OPEN leaves behind. */
  datatype Reply = Reply(st: Stat, body: seq<nat>, fh: NfsTables.Option<string>)

  /** Only a successful OPEN moves the current filehandle. */
  predicate Moves(op: nat, st: Stat) { op == OP_OPEN && st.Ok? }

  datatype Slot = Empty | Cached(st: Stat, body: seq<nat>)

  predicate NoAdvance(st: Stat) { !st.Ok? && !st.Other? }

  function Refusal(st: Stat): Reply { Reply(st, [], NfsTables.None) }

  /** What a client can observe of a stream: nothing accepted yet, or the last accepted request. */
  datatype View = Idle | Last(last: Entry)

  datatype Entry = Entry(seqid: Word, op: nat, reply: Reply)

  /** What one request does: the stream's new view, the reply, and whether the body was executed. */
  datatype Answer = Answer(view: View, reply: Reply, ran: bool)

  function Executed(v: View, op: nat, seqid: Word, outcome: Reply): Answer {
    if NoAdvance(outcome.st) then Answer(v, Refusal(outcome.st), true)
    else Answer(Last(Entry(seqid, op, outcome)), outcome, true)
  }

  function Respond(v: View, op: nat, seqid: Word, outcome: Reply): Answer {
    if v.Last? && v.last.seqid == seqid && v.last.op == op then Answer(v, v.last.reply, false)
    else if v.Last? && Inc(v.last.seqid) != seqid then Answer(v, Refusal(BadSeqid), false)
    else Executed(v, op, seqid, outcome)
  }

  predicate Repeats(v: View, seqid: Word) { v.Last? && v.last.seqid == seqid && v.last.op == OP_LOCK }

  predicate Extends(v: View, seqid: Word) { v.Last? ==> Inc(v.last.seqid) == seqid }

  /** The first LOCK of a lock-owner: the pair of new views, the reply, and whether the body was executed. */
  datatype Answer2 = Answer2(open: View, lock: View, reply: Reply, ran: bool)

  function Respond2(vo: View, vl: View, so: Word, sl: Word, outcome: Reply): Answer2 {
    if Repeats(vo, so) && Repeats(vl, sl) then Answer2(vo, vl, vo.last.reply, false)
    else if !Extends(vo, so) || !Extends(vl, sl) then Answer2(vo, vl, Refusal(BadSeqid), false)
    else if NoAdvance(outcome.st) then Answer2(vo, vl, Refusal(outcome.st), true)
    else Answer2(Last(Entry(so, OP_LOCK, outcome)), Last(Entry(sl, OP_LOCK, outcome)), outcome, true)
  }

  datatype Verdict = Bad | Fresh | Replay | Advance

  class Owner {
    var seqid: Word
    var isFresh: bool
    var lastOp: nat
    var lastReply: Slot
    var lastFH: string

    /** A non-fresh owner always has a cached reply, and a fresh one has none. */
    ghost predicate Valid() reads this { isFresh <==> lastReply == Empty }

    ghost function View(): View
      requires Valid()
      reads this
    {
      if isFresh then Idle else Last(Entry(seqid, lastOp, Replayed(lastOp)))
    }

    /** The cached bytes, and for an OPEN that succeeded the filehandle kept beside them. */
    function Replayed(op: nat): Reply
      requires lastReply.Cached?
      reads this
    {
      Reply(lastReply.st, lastReply.body, if Moves(op, lastReply.st) then NfsTables.Some(lastFH) else NfsTables.None)
    }

    constructor ()
      ensures Valid() && View() == Idle
    {
      seqid, isFresh, lastOp, lastReply, lastFH := 0, true, 0, Empty, "";
    }

    method WithSeqid(op: nat, want: Word, outcome: Reply) returns (reply: Reply, ran: bool)
      requires Valid() && (outcome.fh.Some? <==> Moves(op, outcome.st))
      modifies this
      ensures Valid() && Answer(View(), reply, ran) == Respond(old(View()), op, want, outcome)
    {
      if isFresh {
        isFresh, seqid := false, want;
      } else if want == seqid {
        if lastOp != op || lastReply.Empty? { return Refusal(BadSeqid), false; }
        return Replayed(op), false;
      } else if want == Inc(seqid) {
        seqid := want;
      } else {
        return Refusal(BadSeqid), false;
      }
      if NoAdvance(outcome.st) {
        seqid := Dec(seqid);
        if lastReply.Empty? { isFresh := true; }
        return Refusal(outcome.st), true;
      }
      if outcome.fh.Some? { lastFH := outcome.fh.value; }
      lastOp, lastReply := op, Cached(outcome.st, outcome.body);
      return outcome, true;
    }

    method Classify(want: Word) returns (v: Verdict)
      requires Valid()
      ensures v.Replay? <==> Repeats(View(), want)
      ensures v.Fresh? || v.Advance? <==> Extends(View(), want)
      ensures v.Fresh? <==> isFresh
    {
      if isFresh { return Fresh; }
      if want == seqid {
        if lastOp != OP_LOCK || lastReply.Empty? { return Bad; }
        return Replay;
      }
      return if want == Inc(seqid) then Advance else Bad;
    }
  }

  method WithTwoSeqids(openOwner: Owner, lockOwner: Owner, openSeq: Word, lockSeq: Word, outcome: Reply)
    returns (reply: Reply, ran: bool)
    requires openOwner != lockOwner && openOwner.Valid() && lockOwner.Valid() && outcome.fh.None?
    modifies openOwner, lockOwner
    ensures openOwner.Valid() && lockOwner.Valid()
    ensures Answer2(openOwner.View(), lockOwner.View(), reply, ran)
         == Respond2(old(openOwner.View()), old(lockOwner.View()), openSeq, lockSeq, outcome)
  {
    var owners, wants := [openOwner, lockOwner], [openSeq, lockSeq];
    var replaying, advancing := 0, 0;
    ghost var vo, vl := openOwner.View(), lockOwner.View();
    for i := 0 to 2
      modifies {}
      invariant replaying + advancing == i
      invariant i == 1 ==> (replaying == 1 <==> Repeats(vo, openSeq)) && (advancing == 1 <==> Extends(vo, openSeq))
      invariant i == 2 ==> (replaying == 2 <==> Repeats(vo, openSeq) && Repeats(vl, lockSeq))
      invariant i == 2 ==> (advancing == 2 <==> Extends(vo, openSeq) && Extends(vl, lockSeq))
    {
      var v := owners[i].Classify(wants[i]);
      if v.Bad? { return Refusal(BadSeqid), false; }
      if v.Replay? { replaying := replaying + 1; } else { advancing := advancing + 1; }
    }
    if replaying > 0 && advancing > 0 { return Refusal(BadSeqid), false; }
    if replaying == 2 { return openOwner.Replayed(OP_LOCK), false; }
    var wasOpen, wasLock := (openOwner.seqid, openOwner.isFresh), (lockOwner.seqid, lockOwner.isFresh);
    openOwner.isFresh, openOwner.seqid := false, openSeq;
    lockOwner.isFresh, lockOwner.seqid := false, lockSeq;
    if NoAdvance(outcome.st) {
      openOwner.seqid, openOwner.isFresh := wasOpen.0, wasOpen.1;
      lockOwner.seqid, lockOwner.isFresh := wasLock.0, wasLock.1;
      return Refusal(outcome.st), true;
    }
    openOwner.lastOp, openOwner.lastReply := OP_LOCK, Cached(outcome.st, outcome.body);
    lockOwner.lastOp, lockOwner.lastReply := OP_LOCK, Cached(outcome.st, outcome.body);
    return outcome, true;
  }

  // ------------------------------------------------------------------ runs

  type Name = NfsTables.Owner

  datatype Request = One(who: Name, op: nat, seqid: Word, outcome: Reply)
                   | Two(open: Name, lock: Name, openSeq: Word, lockSeq: Word, outcome: Reply)
  {
    predicate Wf() { Two? ==> open != lock }
  }

  /** Owners absent from the map have never sent a request. */
  type Views = map<Name, View>

  function At(vs: Views, who: Name): View { if who in vs then vs[who] else Idle }

  datatype Result = Result(views: Views, reply: Reply, ran: bool)

  function Serve(vs: Views, q: Request): Result {
    match q
    case One(who, op, seqid, outcome) =>
      var a := Respond(At(vs, who), op, seqid, outcome);
      Result(vs[who := a.view], a.reply, a.ran)
    case Two(o, l, so, sl, outcome) =>
      var a := Respond2(At(vs, o), At(vs, l), so, sl, outcome);
      Result(vs[o := a.open][l := a.lock], a.reply, a.ran)
  }

  function After(vs: Views, run: seq<Request>): Views
    decreases |run|
  {
    if run == [] then vs else After(Serve(vs, run[0]).views, run[1..])
  }

  function Replies(vs: Views, run: seq<Request>): seq<Reply>
    decreases |run|
  {
    if run == [] then [] else [Serve(vs, run[0]).reply] + Replies(Serve(vs, run[0]).views, run[1..])
  }

  /** The body of `q` is executed and its result is kept. */
  predicate Accepts(vs: Views, q: Request) { Serve(vs, q).ran && !NoAdvance(q.outcome.st) }

  /** The request as `who`'s stream sees it. */
  function SeenBy(who: Name, q: Request): seq<Entry> {
    match q
    case One(n, op, seqid, outcome) => if n == who then [Entry(seqid, op, outcome)] else []
    case Two(o, l, so, sl, outcome) =>
      if l == who then [Entry(sl, OP_LOCK, outcome)] else if o == who then [Entry(so, OP_LOCK, outcome)] else []
  }

  /** What accepting `q` adds to the history of `who`'s stream. */
  function Added(vs: Views, q: Request, who: Name): seq<Entry> {
    if Accepts(vs, q) then SeenBy(who, q) else []
  }

  /** Every request accepted on `who`'s stream, in order: the history the one slot stands for. */
  function History(vs: Views, run: seq<Request>, who: Name): seq<Entry>
    decreases |run|
  {
    if run == [] then [] else Added(vs, run[0], who) + History(Serve(vs, run[0]).views, run[1..], who)
  }

  predicate Consecutive(h: seq<Entry>) {
    |h| < 2 || (h[1].seqid == Inc(h[0].seqid) && Consecutive(h[1..]))
  }

  predicate AllWf(run: seq<Request>) { forall i | 0 <= i < |run| :: run[i].Wf() }

  function LastOf(v: View, h: seq<Entry>): View { if h == [] then v else Last(h[|h| - 1]) }

  function Prior(v: View): seq<Entry> { if v.Idle? then [] else [v.last] }

  lemma ServeShape(vs: Views, q: Request, who: Name)
    requires q.Wf()
    ensures var add := Added(vs, q, who);
            && At(Serve(vs, q).views, who) == LastOf(At(vs, who), add)
            && |add| <= 1 && Consecutive(Prior(At(vs, who)) + add)
  {
    match q
    case One(_, _, _, _) =>
    case Two(_, _, _, _, _) =>
  }

  /** The slot always holds the last entry of the stream's history, and the history never skips an id. */
  lemma {:induction false} HistoryConsecutive(vs: Views, run: seq<Request>, who: Name)
    requires AllWf(run)
    ensures At(After(vs, run), who) == LastOf(At(vs, who), History(vs, run, who))
    ensures Consecutive(Prior(At(vs, who)) + History(vs, run, who))
    decreases |run|
  {
    if run != [] {
      ServeShape(vs, run[0], who);
      HistoryConsecutive(Serve(vs, run[0]).views, run[1..], who);
      Joined(Prior(At(vs, who)), Added(vs, run[0], who), History(Serve(vs, run[0]).views, run[1..], who));
    }
  }

  lemma Joined(p: seq<Entry>, add: seq<Entry>, rest: seq<Entry>)
    requires |p| <= 1 && |add| <= 1 && Consecutive(p + add)
    requires Consecutive((if add == [] then p else add) + rest)
    ensures Consecutive(p + (add + rest))
  {
    if add == [] {
      assert add + rest == rest;
    } else if p != [] {
      assert (p + (add + rest))[1..] == add + rest;
    } else {
      assert p + (add + rest) == add + rest;
    }
  }

  lemma {:induction false} SeqidAt(h: seq<Entry>, i: nat, j: nat)
    requires Consecutive(h) && i <= j < |h|
    ensures h[j].seqid == Later(h[i].seqid, j - i)
    decreases i, j
  {
    if i > 0 {
      SeqidAt(h[1..], i - 1, j - 1);
    } else if j > 0 {
      SeqidAt(h[1..], 0, j - 1);
      LaterInc(h[0].seqid, j - 1);
    }
  }

  const NOBODY: Views := map[]

  /**
   Exactly once: from the start of any run, no stream ever accepts the same
   sequence id twice within WORD accepted requests.
   */
  lemma NoSeqidAcceptedTwice(run: seq<Request>, who: Name, i: nat, j: nat)
    requires AllWf(run)
    requires i < j < |History(NOBODY, run, who)| && j - i < WORD
    ensures History(NOBODY, run, who)[i].seqid != History(NOBODY, run, who)[j].seqid
  {
    var h := History(NOBODY, run, who);
    FromTheStart(run, who);
    SeqidAt(h, i, j);
    LaterDiffers(h[i].seqid, j - i);
  }

  lemma FromTheStart(run: seq<Request>, who: Name)
    requires AllWf(run)
    ensures Consecutive(History(NOBODY, run, who))
  {
    HistoryConsecutive(NOBODY, run, who);
    assert [] + History(NOBODY, run, who) == History(NOBODY, run, who);
  }

  /** `reply` belongs to the last accepted request of the stream, which had `q`'s operation and id. */
  ghost predicate RepeatsLast(run: seq<Request>, q: Request, reply: Reply) {
    match q
    case One(who, op, seqid, _) => LastOf(Idle, History(NOBODY, run, who)) == Last(Entry(seqid, op, reply))
    case Two(o, l, so, sl, _) =>
      && LastOf(Idle, History(NOBODY, run, o)) == Last(Entry(so, OP_LOCK, reply))
      && Repeats(LastOf(Idle, History(NOBODY, run, l)), sl)
  }

  /**
   A reply given without executing the body is a refusal or the reply of the last
   accepted request of that stream; and a request that repeats that one is always
   answered that way.
   */
  lemma ReplayIsLastAccepted(run: seq<Request>, q: Request)
    requires AllWf(run) && q.Wf()
    ensures var a := Serve(After(NOBODY, run), q);
            && (a.ran || a.reply == Refusal(BadSeqid) || RepeatsLast(run, q, a.reply))
            && forall r | RepeatsLast(run, q, r) :: !a.ran && a.reply == r
  {
    match q
    case One(who, _, _, _) => HistoryConsecutive(NOBODY, run, who);
    case Two(o, l, _, _, _) =>
      HistoryConsecutive(NOBODY, run, o);
      HistoryConsecutive(NOBODY, run, l);
  }

  /** A two-stream LOCK extends both histories or neither. */
  lemma BothOrNeither(vs: Views, q: Request)
    requires q.Wf() && q.Two?
    ensures var vs' := Serve(vs, q).views;
            if Accepts(vs, q) then
              && At(vs', q.open) == Last(Entry(q.openSeq, OP_LOCK, q.outcome))
              && At(vs', q.lock) == Last(Entry(q.lockSeq, OP_LOCK, q.outcome))
            else At(vs', q.open) == At(vs, q.open) && At(vs', q.lock) == At(vs, q.lock)
  {}

  ghost predicate Same(a: Views, b: Views) { forall n :: At(a, n) == At(b, n) }

  lemma ServeSame(a: Views, b: Views, q: Request)
    requires Same(a, b)
    ensures Serve(a, q).reply == Serve(b, q).reply && Same(Serve(a, q).views, Serve(b, q).views)
  {
    match q {
      case One(who, _, _, _) => assert At(a, who) == At(b, who);
      case Two(o, l, _, _, _) => assert At(a, o) == At(b, o) && At(a, l) == At(b, l);
    }
    forall n ensures At(Serve(a, q).views, n) == At(Serve(b, q).views, n) { assert At(a, n) == At(b, n); }
  }

  lemma {:induction false} SameReplies(a: Views, b: Views, run: seq<Request>)
    requires Same(a, b)
    ensures Replies(a, run) == Replies(b, run) && Same(After(a, run), After(b, run))
    decreases |run|
  {
    if run != [] {
      ServeSame(a, b, run[0]);
      SameReplies(Serve(a, run[0]).views, Serve(b, run[0]).views, run[1..]);
    }
  }

  lemma {:induction false} RepliesSplit(vs: Views, a: seq<Request>, b: seq<Request>)
    ensures Replies(vs, a + b) == Replies(vs, a) + Replies(After(vs, a), b)
    ensures After(vs, a + b) == After(After(vs, a), b)
    decreases |a|
  {
    if a == [] {
      assert a + b == b;
    } else {
      assert (a + b)[1..] == a[1..] + b;
      RepliesSplit(Serve(vs, a[0]).views, a[1..], b);
    }
  }

  /**
   A request that is not accepted (refused, replayed, or executed with a no-advance
   status) leaves no trace: with it struck out, every other reply of every run is
   the same.
   */
  lemma NotAcceptedLeavesNoTrace(before: seq<Request>, q: Request, after: seq<Request>)
    requires q.Wf() && !Accepts(After(NOBODY, before), q)
    ensures var vs := After(NOBODY, before);
            && Replies(NOBODY, before + after) == Replies(NOBODY, before) + Replies(vs, after)
            && Replies(NOBODY, before + [q] + after)
               == Replies(NOBODY, before) + [Serve(vs, q).reply] + Replies(vs, after)
  {
    RepliesSplit(NOBODY, before, after);
    RepliesAround(NOBODY, before, q, after);
    StruckOut(After(NOBODY, before), q, after);
    var reply := Serve(After(NOBODY, before), q).reply;
    Regroup(Replies(NOBODY, before), reply, Replies(After(NOBODY, before), after));
  }

  lemma Regroup<T>(a: seq<T>, x: T, b: seq<T>)
    ensures a + [x] + b == a + ([x] + b)
  {}

  lemma RepliesAround(vs: Views, before: seq<Request>, q: Request, after: seq<Request>)
    ensures Replies(vs, before + [q] + after) == Replies(vs, before) + Replies(After(vs, before), [q] + after)
  {
    RepliesSplit(vs, before, [q] + after);
    Regroup(before, q, after);
  }

  lemma StruckOut(vs: Views, q: Request, after: seq<Request>)
    requires q.Wf() && !Accepts(vs, q)
    ensures Replies(vs, [q] + after) == [Serve(vs, q).reply] + Replies(vs, after)
  {
    assert ([q] + after)[1..] == after;
    forall n ensures At(Serve(vs, q).views, n) == At(vs, n) { ServeShape(vs, q, n); }
    SameReplies(Serve(vs, q).views, vs, after);
  }
}
