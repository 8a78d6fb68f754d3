/**
 * Which snapshots the cost ledger keeps: of the distinct timestamps present,
 * the `n` greatest in string order (`sorted(set(...))[-n:]` in the source).
 * A timestamp is kept exactly when fewer than `n` timestamps sort after it.
 */
module Retention {
  import LexOrder

  /** The timestamps of `all` that sort strictly after `t`. */
  function Above(all: set<string>, t: string): set<string>
  {
    set u | u in all && LexOrder.Less(t, u)
  }

  /** The timestamps of `all` with fewer than `n` timestamps sorting after them. */
  function TopN(all: set<string>, n: nat): (kept: set<string>)
    ensures kept <= all
  {
    set t | t in all && |Above(all, t)| < n
  }

  /** A subset is no larger, and a proper subset is smaller. */
  lemma SubsetSize(small: set<string>, big: set<string>)
    requires small <= big
    ensures |small| <= |big|
    ensures small != big ==> |small| < |big|
  {
    assert big == small + (big - small);
    if small != big {
      var x :| x in big && x !in small;
      assert x in big - small;
    }
  }

  /** Every finite non-empty set of strings has a greatest element. */
  lemma {:induction false} GreatestExists(all: set<string>)
    requires all != {}
    ensures exists m :: m in all && Above(all, m) == {}
    decreases |all|
  {
    var x :| x in all;
    if all == {x} {
      LexOrder.Irreflexive(x);
      assert Above(all, x) == {};
    } else {
      var rest := all - {x};
      GreatestExists(rest);
      var m :| m in rest && Above(rest, m) == {};
      if LexOrder.Less(m, x) {
        forall u | u in all
          ensures !LexOrder.Less(x, u)
        {
          LexOrder.Irreflexive(x);
          if u != x {
            assert u !in Above(rest, m);
            if LexOrder.Less(x, u) {
              LexOrder.Transitive(m, x, u);
            }
          }
        }
        assert Above(all, x) == {};
      } else {
        assert Above(all, m) == {};
      }
    }
  }

  /** Removing the greatest timestamp leaves one fewer above every other. */
  lemma AboveWithoutGreatest(all: set<string>, m: string, t: string)
    requires m in all && Above(all, m) == {}
    requires t in all && t != m
    ensures Above(all, t) == Above(all - {m}, t) + {m}
    ensures m !in Above(all - {m}, t)
  {
    LexOrder.Total(t, m);
    assert t !in Above(all, m);
  }

  /** Keeping `n` of `all` is keeping its greatest and `n - 1` of the rest. */
  lemma TopNWithoutGreatest(all: set<string>, n: nat, m: string)
    requires n > 0 && m in all && Above(all, m) == {}
    ensures TopN(all, n) == TopN(all - {m}, n - 1) + {m}
    ensures m !in TopN(all - {m}, n - 1)
  {
    var rest := all - {m};
    forall t | t in TopN(all, n)
      ensures t == m || t in TopN(rest, n - 1)
    {
      if t != m {
        AboveWithoutGreatest(all, m, t);
      }
    }
    forall t | t in TopN(rest, n - 1)
      ensures t in TopN(all, n)
    {
      AboveWithoutGreatest(all, m, t);
    }
  }

  /** Keeping `n` of `all` keeps one more than keeping `n - 1` of the rest. */
  lemma TopNSizeStep(all: set<string>, n: nat, m: string)
    requires n > 0 && m in all && Above(all, m) == {}
    ensures |TopN(all, n)| == |TopN(all - {m}, n - 1)| + 1
  {
    TopNWithoutGreatest(all, n, m);
  }

  /** Exactly min(n, |all|) timestamps are kept. */
  lemma {:induction false} TopNSize(all: set<string>, n: nat)
    ensures |TopN(all, n)| == if |all| < n then |all| else n
    decreases |all|
  {
    if all == {} {
      assert TopN(all, n) == {};
    } else if n == 0 {
      assert TopN(all, n) == {};
    } else {
      GreatestExists(all);
      var m :| m in all && Above(all, m) == {};
      TopNSizeStep(all, n, m);
      TopNSize(all - {m}, n - 1);
    }
  }

  /** A kept timestamp never has a dropped one sorting after it. */
  lemma TopNUpwardClosed(all: set<string>, n: nat, t: string, u: string)
    requires t in TopN(all, n) && u in all && LexOrder.Less(t, u)
    ensures u in TopN(all, n)
  {
    forall v | v in Above(all, u)
      ensures v in Above(all, t)
    {
      LexOrder.Transitive(t, u, v);
    }
    LexOrder.Irreflexive(u);
    assert u in Above(all, t) && u !in Above(all, u);
    SubsetSize(Above(all, u), Above(all, t));
    assert |Above(all, t)| < n;
  }

  /** Nothing is dropped while there are at most `n` timestamps. */
  lemma TopNKeepsAllWhenFew(all: set<string>, n: nat)
    requires |all| <= n
    ensures TopN(all, n) == all
  {
    TopNSize(all, n);
    if TopN(all, n) != all {
      SubsetSize(TopN(all, n), all);
    }
  }

  /** A timestamp no other sorts after is always kept (for n > 0). */
  lemma GreatestIsKept(all: set<string>, n: nat, t: string)
    requires n > 0 && t in all
    requires forall u :: u in all ==> !LexOrder.Less(t, u)
    ensures t in TopN(all, n)
  {
    assert Above(all, t) == {};
  }
}
