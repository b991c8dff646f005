/**
 Wildcard matching of directory queries (smb/ops_misc.go, dosMatch): a walk with one
 backtrack point against the recursive meaning of `*` and `?`.

 Pattern and name are the strings after upper-casing.
 */
module DosMatch {
  /** What a pattern means: `*` stands for any run of characters, `?` for any one. */
  ghost predicate Matches(p: string, n: string)
    decreases |p| + |n|
  {
    if p == "" then n == ""
    else if p[0] == '*' then Matches(p[1..], n) || (n != "" && Matches(p, n[1..]))
    else n != "" && (p[0] == '?' || p[0] == n[0]) && Matches(p[1..], n[1..])
  }

  predicate Fits(c: char, d: char) { c == '?' || c == d }

  /** The walk from one of its states. */
  function Walk(p: string, n: string, i: nat, j: nat, star: int, mark: nat): bool
    requires i <= |p| && mark <= j <= |n| && -1 <= star < i
    decreases |n| - mark, |p| - i
  {
    if j == |n| then forall k | i <= k < |p| :: p[k] == '*'
    else if i < |p| && Fits(p[i], n[j]) then Walk(p, n, i + 1, j + 1, star, mark)
    else if i < |p| && p[i] == '*' then Walk(p, n, i + 1, j, i, j)
    else if star >= 0 then Walk(p, n, star + 1, mark + 1, star, mark + 1)
    else false
  }

  /** The loop, and how many rounds it takes: polynomial in the two lengths. */
  method DosMatch(p: string, n: string) returns (ok: bool, ghost rounds: nat)
    ensures ok == Walk(p, n, 0, 0, -1, 0)
    ensures rounds <= |n| * (|p| + 1) + |p|
  {
    var i, j, star, mark := 0, 0, -1, 0;
    rounds := 0;
    ghost var resets := 0;
    while j < |n|
      invariant i <= |p| && mark <= j <= |n| && -1 <= star < i
      invariant Walk(p, n, i, j, star, mark) == Walk(p, n, 0, 0, -1, 0)
      invariant resets <= mark && rounds <= i + resets * (|p| + 1)
      decreases |n| - mark, |p| - i
    {
      if i < |p| && (p[i] == '?' || p[i] == n[j]) {
        i, j := i + 1, j + 1;
      } else if i < |p| && p[i] == '*' {
        star, mark := i, j;
        i := i + 1;
      } else if star >= 0 {
        assert (resets + 1) * (|p| + 1) == resets * (|p| + 1) + (|p| + 1);
        mark, resets := mark + 1, resets + 1;
        i, j := star + 1, mark;
      } else {
        RoundBound(resets, |n|, |p| + 1);
        return false, rounds;
      }
      rounds := rounds + 1;
    }
    RoundBound(resets, |n|, |p| + 1);
    while i < |p| && p[i] == '*'
      invariant i <= |p| && (Walk(p, n, 0, 0, -1, 0) <==> forall k | i <= k < |p| :: p[k] == '*')
    {
      i := i + 1;
    }
    ok := i == |p|;
  }

  lemma RoundBound(r: nat, m: nat, w: nat)
    requires r <= m
    ensures r * w <= m * w
  {}

  // ------------------------------------------------ the walk is the meaning

  /** A stretch of the pattern without stars has matched a stretch of the name of the same length. */
  ghost predicate Stretch(p: string, from: nat, to: nat, n: string, at: nat) {
    && from <= to <= |p| && at + (to - from) <= |n|
    && forall k | from <= k < to :: p[k] != '*' && Fits(p[k], n[at + (k - from)])
  }

  /** A star-free stretch takes exactly its own length. */
  lemma {:induction false} StretchTakes(p: string, from: nat, to: nat, n: string, k: nat)
    requires from <= to <= |p| && k <= |n| && (forall x | from <= x < to :: p[x] != '*')
    requires Matches(p[from..], n[k..])
    ensures k + (to - from) <= |n| && Matches(p[to..], n[k + (to - from)..])
    decreases |p| - from
  {
    if from < to {
      assert p[from..][1..] == p[from + 1..] && n[k..][1..] == n[k + 1..];
      StretchTakes(p, from + 1, to, n, k + 1);
    }
  }

  /** A star takes anything in front. */
  lemma {:induction false} StarTakes(p: string, i: nat, n: string, j: nat, k: nat)
    requires i < |p| && p[i] == '*' && j <= k <= |n| && Matches(p[i..], n[k..])
    ensures Matches(p[i..], n[j..])
    decreases |n| - j
  {
    if j < k {
      StarTakes(p, i, n, j + 1, k);
      assert n[j..][1..] == n[j + 1..];
    }
  }

  /** Some later start of the last star's tail matches. */
  ghost predicate Later(p: string, n: string, star: int, mark: nat)
    requires -1 <= star < |p|
  {
    star >= 0 && exists k :: mark < k <= |n| && Matches(p[star + 1..], n[k..])
  }

  lemma StarsOnly(p: string, i: nat)
    requires i <= |p|
    ensures Matches(p[i..], "") <==> forall k | i <= k < |p| :: p[k] == '*'
    decreases |p| - i
  {
    if i < |p| {
      assert p[i..][1..] == p[i + 1..];
      StarsOnly(p, i + 1);
    }
  }

  /** A later start survives a second star, because the second star can take what lies between. */
  lemma SecondStar(p: string, i: nat, n: string, j: nat, star: int, mark: nat)
    requires i < |p| && p[i] == '*' && 0 <= star < i && mark <= j <= |n| && j - mark == i - (star + 1)
    requires Stretch(p, star + 1, i, n, mark) && Later(p, n, star, mark)
    ensures Matches(p[i..], n[j..])
  {
    var k :| mark < k <= |n| && Matches(p[star + 1..], n[k..]);
    StretchTakes(p, star + 1, i, n, k);
    StarTakes(p, i, n, j, k + (i - star - 1));
  }

  /** At the end of the name no later start is long enough. */
  lemma NoLaterAtEnd(p: string, i: nat, n: string, star: int, mark: nat)
    requires i <= |p| && -1 <= star < i && mark <= |n|
    requires star >= 0 ==> |n| - mark == i - (star + 1) && Stretch(p, star + 1, i, n, mark)
    ensures star < |p| && !Later(p, n, star, mark)
  {
    if star >= 0 {
      forall k | mark < k <= |n| ensures !Matches(p[star + 1..], n[k..]) {
        if Matches(p[star + 1..], n[k..]) { StretchTakes(p, star + 1, i, n, k); }
      }
    }
  }

  lemma MismatchFails(p: string, i: nat, n: string, j: nat)
    requires i <= |p| && j < |n| && (i < |p| ==> !Fits(p[i], n[j]) && p[i] != '*')
    ensures !Matches(p[i..], n[j..])
  {}

  lemma {:induction false} WalkCorrect(p: string, n: string, i: nat, j: nat, star: int, mark: nat)
    requires '*' !in n && i <= |p| && mark <= j <= |n| && -1 <= star < i
    requires star >= 0 ==> j - mark == i - (star + 1) && Stretch(p, star + 1, i, n, mark)
    ensures star < |p| && (Walk(p, n, i, j, star, mark) <==> Matches(p[i..], n[j..]) || Later(p, n, star, mark))
    decreases |n| - mark, |p| - i
  {
    if j == |n| {
      assert n[j..] == "";
      StarsOnly(p, i);
      NoLaterAtEnd(p, i, n, star, mark);
    } else if i < |p| && Fits(p[i], n[j]) {
      assert p[i..][1..] == p[i + 1..] && n[j..][1..] == n[j + 1..];
      assert p[i] != '*' by { assert n[j] in n; }
      WalkCorrect(p, n, i + 1, j + 1, star, mark);
    } else if i < |p| && p[i] == '*' {
      WalkCorrect(p, n, i + 1, j, i, j);
      StarHere(p, i, n, j);
      if Later(p, n, star, mark) { SecondStar(p, i, n, j, star, mark); }
    } else if star >= 0 {
      MismatchFails(p, i, n, j);
      WalkCorrect(p, n, star + 1, mark + 1, star, mark + 1);
      LaterStep(p, n, star, mark);
    } else {
      MismatchFails(p, i, n, j);
    }
  }

  /** A star matches here or its tail matches at a later start. */
  lemma {:induction false} StarHere(p: string, i: nat, n: string, j: nat)
    requires i < |p| && p[i] == '*' && j <= |n|
    ensures Matches(p[i..], n[j..]) <==> Matches(p[i + 1..], n[j..]) || Later(p, n, i, j)
    decreases |n| - j
  {
    assert p[i..][1..] == p[i + 1..];
    if j < |n| {
      assert n[j..][1..] == n[j + 1..];
      StarHere(p, i, n, j + 1);
      LaterStep(p, n, i, j);
    } else {
      assert n[j..] == "";
    }
  }

  lemma LaterStep(p: string, n: string, star: int, mark: nat)
    requires 0 <= star < |p| && mark < |n|
    ensures Later(p, n, star, mark) <==> Matches(p[star + 1..], n[mark + 1..]) || Later(p, n, star, mark + 1)
  {
    if Later(p, n, star, mark) {
      var k :| mark < k <= |n| && Matches(p[star + 1..], n[k..]);
      assert k == mark + 1 || k > mark + 1;
    }
  }

  ghost predicate Agrees(p: string, n: string) { Walk(p, n, 0, 0, -1, 0) <==> Matches(p, n) }

  /** On names without a star the loop computes exactly the meaning of the pattern. */
  lemma AgreesWithoutStars(p: string, n: string)
    requires '*' !in n
    ensures Agrees(p, n)
  {
    WalkCorrect(p, n, 0, 0, -1, 0);
    assert p[0..] == p && n[0..] == n;
  }

  // ------------------------------------------ names that contain a star

  function Any(k: nat): (s: string)
    ensures |s| == k && forall i | 0 <= i < k :: s[i] == '?'
  {
    if k == 0 then "" else "?" + Any(k - 1)
  }

  /** The walk through question marks is the walk one by one. */
  lemma {:induction false} WalkAny(k: nat, tail: string, n: string, i: nat)
    requires i <= k <= |n|
    ensures Walk(Any(k) + tail, n, i, i, -1, 0) == Walk(Any(k) + tail, n, k, k, -1, 0)
    decreases k - i
  {
    if i < k { WalkAny(k, tail, n, i + 1); }
  }

  lemma {:induction false} MatchesAny(k: nat, tail: string, n: string)
    requires k <= |n| && Matches(tail, n[k..])
    ensures Matches(Any(k) + tail, n)
    decreases k
  {
    if k == 0 {
      assert Any(0) + tail == tail && n[0..] == n;
    } else {
      assert (Any(k) + tail)[1..] == Any(k - 1) + tail;
      assert n[1..][k - 1..] == n[k..];
      MatchesAny(k - 1, tail, n[1..]);
    }
  }

  lemma StarMatchesAll(n: string)
    ensures Matches("*", n)
    decreases |n|
  {
    if n != "" { StarMatchesAll(n[1..]); }
  }

  /** A name with a star has a pattern the loop gets wrong: it takes the star in the name for the one in the pattern. */
  lemma DisagreesWithStar(n: string, k: nat)
    requires k < |n| && n[k] == '*'
    ensures exists p :: !Agrees(p, n)
  {
    if k + 1 < |n| {
      var p := Any(k) + "*";
      WalkAny(k, "*", n, 0);
      StarMatchesAll(n[k..]);
      MatchesAny(k, "*", n);
      assert !Agrees(p, n);
    } else {
      var p := Any(k) + "*?";
      WalkAny(k, "*?", n, 0);
      assert n[k..] == "*";
      assert "*?"[1..] == "?" && "?"[1..] == "" && "*"[1..] == "";
      assert Matches("?", "*");
      MatchesAny(k, "*?", n);
      assert p[k + 1] == '?';
      assert !Agrees(p, n);
    }
  }

  /** The loop is right about every pattern exactly for the names without a star. */
  lemma AgreesIff(n: string)
    ensures (forall p :: Agrees(p, n)) <==> '*' !in n
  {
    if '*' !in n {
      forall p ensures Agrees(p, n) { AgreesWithoutStars(p, n); }
    } else {
      var k :| 0 <= k < |n| && n[k] == '*';
      DisagreesWithStar(n, k);
    }
  }
}
