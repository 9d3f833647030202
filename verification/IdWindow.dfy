/** A bounded set of ids that keeps the largest ones (the deduplication window of frontend/lib/sse.ts `accept`). */
module IdWindow {

  lemma Inhabited(s: set<int>)
    ensures s == {} || exists m :: m in s
  {
    if forall m :: m !in s {
      assert s == {};
    }
  }

  lemma LeastExists(s: set<int>)
    requires s != {}
    ensures exists m :: m in s && forall x :: x in s ==> m <= x
    decreases s
  {
    Inhabited(s);
    var m :| m in s;
    var rest := s - {m};
    if rest == {} {
      assert s == {m};
    } else {
      LeastExists(rest);
      var n :| n in rest && forall x :: x in rest ==> n <= x;
      var least := if n < m then n else m;
      assert least in s && forall x :: x in s ==> x == m || x in rest;
    }
  }

  function Least(s: set<int>): (m: int)
    requires s != {}
    ensures m in s && forall x :: x in s ==> m <= x
  {
    LeastExists(s);
    var m :| m in s && forall x :: x in s ==> m <= x;
    m
  }

  /** The `n` largest of a set: the rest dropped, smallest first. */
  function Largest(s: set<int>, n: nat): set<int> {
    if |s| <= n then s else Largest(s - {Least(s)}, n)
  }

  /** What is kept is at most `n` elements, and every dropped element is below every kept one. */
  lemma {:induction false} LargestKeepsTheTop(s: set<int>, n: nat)
    ensures Largest(s, n) <= s && |Largest(s, n)| == if |s| <= n then |s| else n
    ensures forall x, y :: x in s && x !in Largest(s, n) && y in Largest(s, n) ==> x < y
    decreases s
  {
    if |s| > n {
      var rest := s - {Least(s)};
      LargestKeepsTheTop(rest, n);
    }
  }

  /** The last `n` ids up to `k`, ids starting at 1. */
  ghost function Window(k: nat, n: nat): set<int>
    decreases k
  {
    if k == 0 || n == 0 then {} else Window(k - 1, n - 1) + {k}
  }

  lemma {:induction false} WindowIs(k: nat, n: nat)
    ensures forall i :: i in Window(k, n) <==> 1 <= i <= k && k - n < i
    ensures |Window(k, n)| == if k <= n then k else n
    decreases k
  {
    if k > 0 && n > 0 {
      WindowIs(k - 1, n - 1);
    }
  }

  lemma WindowHas(k: nat, n: nat, i: int)
    ensures i in Window(k, n) <==> 1 <= i <= k && k - n < i
  {
    WindowIs(k, n);
  }

  lemma WindowSize(k: nat, n: nat)
    ensures |Window(k, n)| <= n
  {
    WindowIs(k, n);
  }

  /** The smallest of an overfull set goes first. */
  lemma LargestDropsLeast(s: set<int>, n: nat, m: int)
    requires |s| == n + 1 && m in s && forall x :: x in s ==> m <= x
    ensures Largest(s, n) == s - {m}
  {
    assert Least(s) == m;
  }

  /** Adding the next id moves a full window on by one. */
  lemma NextWindow(k: nat, n: nat)
    requires n > 0
    ensures Largest(Window(k, n) + {k + 1}, n) == Window(k + 1, n)
  {
    var s := Window(k, n) + {k + 1};
    WindowIs(k, n);
    if k < n {
      GrownWindow(k, n);
    } else {
      var m := k + 1 - n;
      assert m in Window(k, n);
      LargestDropsLeast(s, n, m);
      SlidWindow(k, n);
    }
  }

  lemma SameMembers<T(!new)>(a: set<T>, b: set<T>)
    requires forall i :: i in a <==> i in b
    ensures a == b
  {
  }

  lemma GrownWindow(k: nat, n: nat)
    requires k < n
    ensures Window(k, n) + {k + 1} == Window(k + 1, n)
  {
    WindowIs(k, n);
    WindowIs(k + 1, n);
    var a, b := Window(k, n) + {k + 1}, Window(k + 1, n);
    forall i: int
      ensures i in a <==> i in b
    {
      assert i in b <==> 1 <= i <= k + 1 && k + 1 - n < i;
    }
    SameMembers(a, b);
  }

  lemma SlidWindow(k: nat, n: nat)
    requires k >= n > 0
    ensures Window(k, n) + {k + 1} - {k + 1 - n} == Window(k + 1, n)
  {
    WindowIs(k, n);
    WindowIs(k + 1, n);
    var a, b := Window(k, n) + {k + 1} - {k + 1 - n}, Window(k + 1, n);
    forall i: int
      ensures i in a <==> i in b
    {
      assert i in b <==> 1 <= i <= k + 1 && k + 1 - n < i;
    }
    SameMembers(a, b);
  }
}
