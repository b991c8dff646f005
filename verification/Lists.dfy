/** Lists without repeats, and the find-and-splice loop that several tables of the repository share. */
module Lists {
  ghost predicate NoDup<T>(s: seq<T>) {
    forall i, j :: 0 <= i < j < |s| ==> s[i] != s[j]
  }

  /** `s` with the first `x` taken out. */
  function Without<T(==)>(s: seq<T>, x: T): seq<T> {
    if s == [] then [] else if s[0] == x then s[1..] else [s[0]] + Without(s[1..], x)
  }

  lemma {:induction false} WithoutExactly<T>(s: seq<T>, x: T)
    requires NoDup(s)
    ensures NoDup(Without(s, x))
    ensures forall y :: y in Without(s, x) <==> y in s && y != x
  {
    if s != [] && s[0] != x {
      WithoutExactly(s[1..], x);
      assert forall y :: y in s <==> y == s[0] || y in s[1..];
      var tail := Without(s[1..], x);
      forall i | 0 <= i < |tail| ensures tail[i] != s[0] { assert tail[i] in tail; }
    } else if s != [] {
      assert forall y :: y in s <==> y == s[0] || y in s[1..];
    }
  }

  lemma {:induction false} WithoutAt<T>(s: seq<T>, x: T, i: nat)
    requires i < |s| && s[i] == x && forall k :: 0 <= k < i ==> s[k] != x
    ensures Without(s, x) == s[..i] + s[i+1..]
  {
    if i > 0 {
      WithoutAt(s[1..], x, i - 1);
      assert s[1..][..i-1] == s[1..i] && s[1..][i..] == s[i+1..];
    }
  }

  lemma {:induction false} WithoutMissing<T>(s: seq<T>, x: T)
    requires x !in s
    ensures Without(s, x) == s
  {
    if s != [] { WithoutMissing(s[1..], x); }
  }

  // ---------- a list that orders a set ----------

  /** `s` lists the elements of `all`, each once. */
  ghost predicate Orders<T>(s: seq<T>, all: set<T>) {
    if s == [] then all == {} else s[0] in all && Orders(s[1..], all - {s[0]})
  }

  lemma {:induction false} OrdersIff<T>(s: seq<T>, all: set<T>)
    ensures Orders(s, all) <==> NoDup(s) && forall x :: x in s <==> x in all
  {
    if s != [] {
      OrdersIff(s[1..], all - {s[0]});
      assert forall x :: x in s <==> x == s[0] || x in s[1..];
      if NoDup(s) && forall x :: x in s <==> x in all {
        forall x | x in s[1..] ensures x in all - {s[0]} {}
      }
      if Orders(s, all) {
        forall j | 0 < j < |s| ensures s[j] != s[0] { assert s[1..][j - 1] == s[j]; }
      }
    }
  }

  lemma OrdersWithout<T>(s: seq<T>, all: set<T>, x: T)
    requires Orders(s, all)
    ensures Orders(Without(s, x), all - {x})
  {
    OrdersIff(s, all);
    WithoutExactly(s, x);
    OrdersIff(Without(s, x), all - {x});
  }

  lemma OrdersAppend<T>(s: seq<T>, all: set<T>, x: T)
    requires Orders(s, all) && x !in all
    ensures Orders(s + [x], all + {x})
  {
    OrdersIff(s, all);
    OrdersIff(s + [x], all + {x});
  }

  method Splice<T(==)>(s: seq<T>, x: T) returns (out: seq<T>)
    ensures out == Without(s, x)
  {
    var i := 0;
    while i < |s| && s[i] != x
      invariant 0 <= i <= |s| && forall k :: 0 <= k < i ==> s[k] != x
    {
      i := i + 1;
    }
    if i == |s| {
      WithoutMissing(s, x);
      return s;
    }
    WithoutAt(s, x, i);
    return s[..i] + s[i+1..];
  }
}
