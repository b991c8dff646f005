/**
 READDIR paging and the snapshots it resumes from (nfs4/ops_io.go, readDir;
 nfs4/dircache.go).

 An entry is its name and the bytes its encoding takes in the reply.
 */
module DirListing {
  import opened Lists
  import opened MapSums

  datatype Entry = Entry(name: string, wire: nat)

  datatype Page = BadCookie | TooSmall | Page(first: nat, count: nat, eof: bool)

  /** What is left of a reply: bytes for encoded entries and for names. */
  datatype Budget = Budget(size: int, names: int)

  function Spend(b: Budget, e: Entry): Budget { Budget(b.size - e.wire, b.names - (|e.name| + 8)) }

  predicate Overdrawn(b: Budget) { b.size < 0 || b.names < 0 }

  /** How many of the entries from `from` on fit. */
  function Fitting(entries: seq<Entry>, from: nat, b: Budget): (n: nat)
    requires from <= |entries|
    ensures from + n <= |entries|
    decreases |entries| - from
  {
    if from == |entries| || Overdrawn(Spend(b, entries[from])) then 0
    else 1 + Fitting(entries, from + 1, Spend(b, entries[from]))
  }

  /** Entry `i` carries cookie `i + 3`; a listing resumes after the entry its cookie names. */
  function CookieOf(i: nat): nat { i + 3 }

  function Resume(entries: seq<Entry>, cookie: nat): (from: nat)
    ensures from <= |entries|
  {
    if cookie == 0 then 0 else if cookie >= 2 && cookie - 2 < |entries| then cookie - 2 else |entries|
  }

  /** One page: the longest run of entries that fits, and whether it reaches the end. */
  function PageAt(entries: seq<Entry>, cookie: nat, b: Budget): Page {
    if cookie == 1 || cookie == 2 then BadCookie
    else
      var from := Resume(entries, cookie);
      var n := Fitting(entries, from, b);
      if n == 0 && from < |entries| then TooSmall
      else Page(from, n, from + n == |entries|)
  }

  /** The encoding loop with its rollback. */
  method ReadPage(entries: seq<Entry>, cookie: nat, b: Budget) returns (page: Page, out: seq<Entry>)
    ensures page == PageAt(entries, cookie, b)
    ensures page.Page? ==> page.first + page.count <= |entries| && out == entries[page.first..page.first + page.count]
  {
    out := [];
    if cookie == 1 || cookie == 2 { return BadCookie, []; }
    var from := Resume(entries, cookie);
    var left := b;
    var i := from;
    while i < |entries|
      invariant from <= i <= |entries| && out == entries[from..i]
      invariant Fitting(entries, from, b) == i - from + Fitting(entries, i, left)
    {
      left := Spend(left, entries[i]);
      if Overdrawn(left) {
        if |out| == 0 { return TooSmall, []; }
        return Page(from, |out|, false), out;
      }
      out := out + [entries[i]];
      i := i + 1;
    }
    return Page(from, |out|, true), out;
  }

  // ------------------------------------------------------------ following

  /** The pages a client gets by following cookies until the listing ends or the budgets do. */
  function Pages(entries: seq<Entry>, cookie: nat, budgets: seq<Budget>): seq<Page>
    decreases |budgets|
  {
    if budgets == [] then []
    else
      var page := PageAt(entries, cookie, budgets[0]);
      if !page.Page? || page.eof || page.count == 0 then [page]
      else [page] + Pages(entries, CookieOf(page.first + page.count - 1), budgets[1..])
  }

  /** Any single entry fits. */
  ghost predicate Roomy(entries: seq<Entry>, b: Budget) {
    b.size >= 0 && b.names >= 0 && forall i | 0 <= i < |entries| :: !Overdrawn(Spend(b, entries[i]))
  }

  ghost predicate AllRoomy(entries: seq<Entry>, budgets: seq<Budget>) {
    budgets == [] || (Roomy(entries, budgets[0]) && AllRoomy(entries, budgets[1..]))
  }

  /** Each page takes up where the one before it stopped. */
  ghost predicate Tiles(entries: seq<Entry>, pages: seq<Page>, from: nat) {
    pages == [] ||
    (&& pages[0].Page? && pages[0].first == from && from + pages[0].count <= |entries|
     && Tiles(entries, pages[1..], from + pages[0].count))
  }

  ghost function Total(pages: seq<Page>): nat {
    if pages == [] then 0 else (if pages[0].Page? then pages[0].count else 0) + Total(pages[1..])
  }

  /** The entries the pages carry. */
  ghost function Content(entries: seq<Entry>, pages: seq<Page>, from: nat): seq<Entry>
    requires Tiles(entries, pages, from)
  {
    if pages == [] then []
    else entries[from..from + pages[0].count] + Content(entries, pages[1..], from + pages[0].count)
  }

  lemma PageFits(entries: seq<Entry>, cookie: nat, b: Budget)
    requires cookie != 1 && cookie != 2 && Roomy(entries, b)
    ensures var page := PageAt(entries, cookie, b);
            && page.Page? && page.first == Resume(entries, cookie) && page.first + page.count <= |entries|
            && (page.eof <==> page.first + page.count == |entries|)
            && (!page.eof ==> page.count > 0)
            && (!page.eof ==> Resume(entries, CookieOf(page.first + page.count - 1)) == page.first + page.count)
  {}

  ghost predicate Ended(pages: seq<Page>) { pages != [] && pages[|pages| - 1].Page? && pages[|pages| - 1].eof }

  /**
   From any cookie, whatever the page budgets, the pages are contiguous; the listing
   has ended exactly when they reach the last entry, and it ends within one page per
   remaining entry.
   */
  lemma {:induction false} PagesTile(entries: seq<Entry>, cookie: nat, budgets: seq<Budget>)
    requires cookie != 1 && cookie != 2 && AllRoomy(entries, budgets)
    ensures var pages, from := Pages(entries, cookie, budgets), Resume(entries, cookie);
            && Tiles(entries, pages, from)
            && (Ended(pages) ==> from + Total(pages) == |entries|)
            && (!Ended(pages) ==> |budgets| <= Total(pages) && (budgets == [] || from + Total(pages) < |entries|))
    decreases |budgets|
  {
    if budgets != [] {
      var page := PageAt(entries, cookie, budgets[0]);
      PageFits(entries, cookie, budgets[0]);
      if page.eof {
        assert [page][1..] == [];
      } else {
        var next := CookieOf(page.first + page.count - 1);
        PagesTile(entries, next, budgets[1..]);
        var rest := Pages(entries, next, budgets[1..]);
        assert ([page] + rest)[1..] == rest;
        if rest != [] { assert ([page] + rest)[|rest|] == rest[|rest| - 1]; }
      }
    }
  }

  lemma SliceSplit<T>(s: seq<T>, a: nat, b: nat, c: nat)
    requires a <= b <= c <= |s|
    ensures s[a..c] == s[a..b] + s[b..c]
  {}

  lemma {:induction false} TilesContent(entries: seq<Entry>, pages: seq<Page>, from: nat)
    requires Tiles(entries, pages, from) && from <= |entries|
    ensures from + Total(pages) <= |entries| && Content(entries, pages, from) == entries[from..from + Total(pages)]
    decreases |pages|
  {
    if pages != [] {
      var mid := from + pages[0].count;
      TilesContent(entries, pages[1..], mid);
      SliceSplit(entries, from, mid, mid + Total(pages[1..]));
    }
  }

  /** A listing from the start returns every entry exactly once, in order, and ends. */
  lemma EveryEntryOnce(entries: seq<Entry>, budgets: seq<Budget>)
    requires |budgets| > |entries| && AllRoomy(entries, budgets)
    ensures var pages := Pages(entries, 0, budgets);
            Ended(pages) && Tiles(entries, pages, 0) && Content(entries, pages, 0) == entries
  {
    PagesTile(entries, 0, budgets);
    TilesContent(entries, Pages(entries, 0, budgets), 0);
    assert entries[0..|entries|] == entries;
  }

  // ------------------------------------------------------------- snapshots

  datatype Key = Key(path: string, verf: nat)

  datatype Snapshot = Snapshot(entries: seq<Entry>, at: int)

  ghost function Sizes(held: map<Key, Snapshot>): map<Key, int> { map k | k in held :: |held[k].entries| }

  class DirCache {
    const ttl: int
    const max: int
    var total: int
    var held: map<Key, Snapshot>
    var order: seq<Key>

    /** The total is the held entries and within the bound; the order lists every key once. */
    ghost predicate Valid() reads this {
      && total == Sum(Sizes(held)) && total <= max
      && Orders(order, held.Keys)
    }

    constructor (ttl: int, max: nat)
      ensures Valid() && held == map[] && this.ttl == ttl && this.max == max
    {
      this.ttl, this.max, total, held, order := ttl, max, 0, map[], [];
      new;
      assert Sizes(held) == map[];
    }

    /** The snapshot a resumed listing named, if it is still held and not too old. */
    method Lookup(key: Key, now: int) returns (entries: seq<Entry>, ok: bool)
      ensures ok <==> key in held && now - held[key].at <= ttl
      ensures ok ==> entries == held[key].entries
    {
      if key !in held || now - held[key].at > ttl { return [], false; }
      return held[key].entries, true;
    }

    /** Removes a snapshot and its place in the order. */
    method Drop(key: Key)
      requires Valid()
      modifies `total, `held, `order
      ensures Valid() && held == old(held) - {key} && order == Without(old(order), key)
      ensures total == old(total) - if key in old(held) then |old(held)[key].entries| else 0
    {
      OrdersWithout(order, held.Keys, key);
      SumDrop(held, key);
      assert (held - {key}).Keys == held.Keys - {key};
      if key !in held {
        OrdersIff(order, held.Keys);
        WithoutMissing(order, key);
        assert held - {key} == held;
        return;
      }
      total := total - |held[key].entries|;
      held := held - {key};
      order := Splice(order, key);
    }

    /** Drops the snapshots older than the time limit. */
    method DropStale(now: int)
      requires Valid()
      modifies `total, `held, `order
      ensures Valid() && order == FreshOf(old(order), old(held), now, ttl)
      ensures forall k | k in held :: k in old(held) && held[k] == old(held)[k]
    {
      var all := order;
      ghost var kept: seq<Key> := [];
      var i := 0;
      while i < |all|
        invariant i <= |all| && Valid() && kept == FreshOf(all[..i], old(held), now, ttl) && order == kept + all[i..]
        invariant forall k | k in held :: k in old(held) && held[k] == old(held)[k]
      {
        FreshNext(all, i, old(held), now, ttl);
        RemoveNext(kept, all, i, held.Keys);
        if all[i] in held && now - held[all[i]].at > ttl {
          Drop(all[i]);
        } else {
          kept := kept + [all[i]];
        }
        i := i + 1;
      }
      assert all[..|all|] == all;
    }

    /** Drops the oldest until `n` more entries fit. */
    method MakeRoom(n: nat) returns (ghost k: nat)
      requires Valid() && n <= max
      modifies `total, `held, `order
      ensures Valid() && total + n <= max
      ensures k <= |old(order)| && order == old(order)[k..]
      ensures forall key | key in held :: key in old(held) && held[key] == old(held)[key]
      ensures k > 0 ==> old(order)[k - 1] in old(held) && total + |old(held)[old(order)[k - 1]].entries| + n > max
    {
      k := 0;
      while total + n > max && |order| > 0
        invariant Valid() && k <= |old(order)| && order == old(order)[k..]
        invariant forall key | key in held :: key in old(held) && held[key] == old(held)[key]
        invariant k > 0 ==> old(order)[k - 1] in old(held) && total + |old(held)[old(order)[k - 1]].entries| + n > max
        decreases |order|
      {
        Drop(order[0]);
        k := k + 1;
      }
      if order == [] { EmptyTotal(held); }
    }

    /**
     Stores a listing: the same key and stale snapshots go, then the oldest while the
     bound needs it; the rest stays, and the new one is the youngest.
     */
    method Put(key: Key, entries: seq<Entry>, now: int)
      requires Valid()
      modifies `total, `held, `order
      ensures Valid()
      ensures |entries| > max ==> held == old(held) && order == old(order)
      ensures |entries| <= max ==> key in held && held[key] == Snapshot(entries, now)
      ensures forall k | k in held && k != key :: k in old(held) && held[k] == old(held)[k]
      ensures |entries| <= max ==> var live := FreshOf(Without(old(order), key), old(held) - {key}, now, ttl);
        exists k :: 0 <= k <= |live| && order == live[k..] + [key]
                 && (k > 0 ==> live[k - 1] in old(held) && total + |old(held)[live[k - 1]].entries| > max)
    {
      if |entries| > max { return; }
      Drop(key);
      DropStale(now);
      ghost var k := MakeRoom(|entries|);
      SumPut(held, key, Snapshot(entries, now));
      OrdersAppend(order, held.Keys, key);
      assert held[key := Snapshot(entries, now)].Keys == held.Keys + {key};
      held := held[key := Snapshot(entries, now)];
      order := order + [key];
      total := total + |entries|;
    }
  }

  /** In a list without repeats the next key is the first of its kind. */
  lemma RemoveNext(kept: seq<Key>, all: seq<Key>, i: nat, keys: set<Key>)
    requires i < |all| && Orders(kept + all[i..], keys)
    ensures Without(kept + all[i..], all[i]) == kept + all[i + 1..]
    ensures all[i] in keys && kept + all[i..] == (kept + [all[i]]) + all[i + 1..]
  {
    var order := kept + all[i..];
    OrdersIff(order, keys);
    assert order[|kept|] == all[i];
    forall k | 0 <= k < |kept| ensures order[k] != all[i] {}
    WithoutAt(order, all[i], |kept|);
  }

  lemma SumDrop(held: map<Key, Snapshot>, key: Key)
    ensures Sum(Sizes(held - {key})) == Sum(Sizes(held)) - if key in held then |held[key].entries| else 0
  {
    if key in held {
      SumWithout(Sizes(held), key);
      assert Sizes(held - {key}) == Sizes(held) - {key};
    } else {
      assert held - {key} == held;
    }
  }

  lemma SumPut(held: map<Key, Snapshot>, key: Key, snap: Snapshot)
    requires key !in held
    ensures Sum(Sizes(held[key := snap])) == Sum(Sizes(held)) + |snap.entries|
  {
    SumUpdate(Sizes(held), key, |snap.entries|);
    assert Sizes(held[key := snap]) == Sizes(held)[key := |snap.entries|];
  }

  /** The keys whose snapshots are not too old, in order. */
  function FreshOf(order: seq<Key>, held: map<Key, Snapshot>, now: int, ttl: int): seq<Key> {
    if order == [] then []
    else
      var last := order[|order| - 1];
      FreshOf(order[..|order| - 1], held, now, ttl) + if last in held && now - held[last].at > ttl then [] else [last]
  }

  lemma FreshNext(all: seq<Key>, i: nat, held: map<Key, Snapshot>, now: int, ttl: int)
    requires i < |all|
    ensures FreshOf(all[..i + 1], held, now, ttl)
         == FreshOf(all[..i], held, now, ttl) + if all[i] in held && now - held[all[i]].at > ttl then [] else [all[i]]
  {
    assert all[..i + 1][..i] == all[..i];
  }

  lemma EmptyTotal(held: map<Key, Snapshot>)
    requires held.Keys == {}
    ensures Sum(Sizes(held)) == 0
  {
    assert Sizes(held) == map[];
  }
}
