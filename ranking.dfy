/** The working list of the engine and the `recs.sort` call that ranks it:
    Array.prototype.sort with the comparator `(b.score || 0) - (a.score || 0)`,
    which the language requires to be stable, modelled by a stable insertion sort. */
module Ranking {
  import opened KnowledgeBase

  /** A recommendation entry as the engine returns it. */
  datatype Rec = Rec(title: string, description: string, path: string)

  /** An element of `recs`: either a fixed education-stage entry, or a qualifying
      domain with its score and its suggestions. */
  datatype Pushed =
    | Stage(rec: Rec)
    | DomainMatch(domain: string, score: int, suggestions: seq<Suggestion>)

  /** `x.score || 0`: education-stage entries have no score. */
  function Key(e: Pushed): int {
    if e.DomainMatch? then e.score else 0
  }

  /** Higher keys first. */
  predicate SortedDesc(s: seq<Pushed>) {
    forall i, j :: 0 <= i < j < |s| ==> Key(s[i]) >= Key(s[j])
  }

  /** The entries of `s` whose key is `k`, in their order in `s`. */
  function WithKey(s: seq<Pushed>, k: int): (r: seq<Pushed>)
    ensures |r| <= |s|
  {
    if s == [] then []
    else (if Key(s[0]) == k then [s[0]] else []) + WithKey(s[1..], k)
  }

  /** Every key in `s` is at most `k`. */
  predicate AllAtMost(s: seq<Pushed>, k: int) {
    forall i :: 0 <= i < |s| ==> Key(s[i]) <= k
  }

  /** Every key in `s` exceeds `k`. */
  predicate AllAbove(s: seq<Pushed>, k: int) {
    forall i :: 0 <= i < |s| ==> Key(s[i]) > k
  }

  /** Puts `x` in front of the first entry whose key does not exceed its own. */
  function Insert(x: Pushed, s: seq<Pushed>): (r: seq<Pushed>)
    ensures |r| == |s| + 1
  {
    if s == [] || Key(s[0]) <= Key(x) then [x] + s
    else [s[0]] + Insert(x, s[1..])
  }

  lemma {:induction false} InsertPermutes(x: Pushed, s: seq<Pushed>)
    ensures multiset(Insert(x, s)) == multiset(s) + multiset{x}
    decreases |s|
  {
    if s != [] && Key(s[0]) > Key(x) {
      InsertPermutes(x, s[1..]);
      assert s == [s[0]] + s[1..];
    }
  }

  lemma {:induction false} InsertAtMost(x: Pushed, s: seq<Pushed>, k: int)
    requires AllAtMost(s, k) && Key(x) <= k
    ensures AllAtMost(Insert(x, s), k)
    decreases |s|
  {
    if s != [] && Key(s[0]) > Key(x) {
      InsertAtMost(x, s[1..], k);
    }
  }

  lemma {:induction false} InsertAbove(x: Pushed, s: seq<Pushed>, k: int)
    requires AllAbove(s, k) && Key(x) > k
    ensures AllAbove(Insert(x, s), k)
    decreases |s|
  {
    if s != [] && Key(s[0]) > Key(x) {
      InsertAbove(x, s[1..], k);
    }
  }

  /** Inserting into a ranked list keeps it ranked. */
  lemma {:induction false} InsertSorted(x: Pushed, s: seq<Pushed>)
    requires SortedDesc(s)
    ensures SortedDesc(Insert(x, s))
    decreases |s|
  {
    if s == [] || Key(s[0]) <= Key(x) {
      var r := [x] + s;
      forall i, j | 0 <= i < j < |r| ensures Key(r[i]) >= Key(r[j]) {
        if i > 0 {
          assert r[i] == s[i - 1];
        }
        assert r[j] == s[j - 1];
      }
    } else {
      var t := Insert(x, s[1..]);
      InsertSorted(x, s[1..]);
      InsertAtMost(x, s[1..], Key(s[0]));
      var r := [s[0]] + t;
      forall i, j | 0 <= i < j < |r| ensures Key(r[i]) >= Key(r[j]) {
        assert r[j] == t[j - 1];
        if i > 0 {
          assert r[i] == t[i - 1];
        }
      }
    }
  }

  /** The ranked list: sorted by descending key (a permutation of `s`, by
      SortPermutes). */
  function SortByScore(s: seq<Pushed>): (r: seq<Pushed>)
    ensures |r| == |s|
    ensures SortedDesc(r)
  {
    if s == [] then []
    else
      var t := SortByScore(s[1..]);
      InsertSorted(s[0], t);
      Insert(s[0], t)
  }

  /** Ranking neither loses nor duplicates an entry. */
  lemma {:induction false} SortPermutes(s: seq<Pushed>)
    ensures multiset(SortByScore(s)) == multiset(s)
    decreases |s|
  {
    if s != [] {
      SortPermutes(s[1..]);
      InsertPermutes(s[0], SortByScore(s[1..]));
      assert s == [s[0]] + s[1..];
    }
  }

  lemma {:induction false} SortAbove(s: seq<Pushed>, k: int)
    requires AllAbove(s, k)
    ensures AllAbove(SortByScore(s), k)
    decreases |s|
  {
    if s != [] {
      SortAbove(s[1..], k);
      InsertAbove(s[0], SortByScore(s[1..]), k);
    }
  }

  lemma {:induction false} WithKeyAppend(a: seq<Pushed>, b: seq<Pushed>, k: int)
    ensures WithKey(a + b, k) == WithKey(a, k) + WithKey(b, k)
    decreases |a|
  {
    if a == [] {
      assert a + b == b;
    } else {
      var head := if Key(a[0]) == k then [a[0]] else [];
      assert (a + b)[0] == a[0];
      assert (a + b)[1..] == a[1..] + b;
      calc {
        WithKey(a + b, k);
        head + WithKey(a[1..] + b, k);
        { WithKeyAppend(a[1..], b, k); }
        head + (WithKey(a[1..], k) + WithKey(b, k));
        (head + WithKey(a[1..], k)) + WithKey(b, k);
      }
    }
  }

  lemma {:induction false} InsertWithKey(x: Pushed, s: seq<Pushed>, k: int)
    requires SortedDesc(s)
    ensures WithKey(Insert(x, s), k) ==
      if Key(x) == k then [x] + WithKey(s, k) else WithKey(s, k)
    decreases |s|
  {
    if s == [] || Key(s[0]) <= Key(x) {
      assert ([x] + s)[1..] == s;
    } else {
      var r := Insert(x, s[1..]);
      assert ([s[0]] + r)[1..] == r;
      InsertWithKey(x, s[1..], k);
      if Key(x) == k {
        assert Key(s[0]) != k;
      }
    }
  }

  /** Stability: among entries of equal key, the ranked list keeps the input order. */
  lemma {:induction false} SortStable(s: seq<Pushed>, k: int)
    ensures WithKey(SortByScore(s), k) == WithKey(s, k)
    decreases |s|
  {
    if s != [] {
      SortStable(s[1..], k);
      InsertWithKey(s[0], SortByScore(s[1..]), k);
    }
  }

  /** Inserting below a block of strictly higher keys leaves that block in front. */
  lemma {:induction false} InsertBelow(x: Pushed, a: seq<Pushed>, b: seq<Pushed>)
    requires AllAbove(a, Key(x))
    ensures Insert(x, a + b) == a + Insert(x, b)
    decreases |a|
  {
    if a == [] {
      assert a + b == b;
    } else {
      assert (a + b)[0] == a[0];
      assert (a + b)[1..] == a[1..] + b;
      InsertBelow(x, a[1..], b);
    }
  }

  /** Education-stage entries (key 0) pushed ahead of domains whose keys are
      positive end up after all of them, in their original order. */
  lemma {:induction false} SortStagesLast(es: seq<Pushed>, ms: seq<Pushed>)
    requires forall i :: 0 <= i < |es| ==> es[i].Stage?
    requires AllAbove(ms, 0)
    ensures SortByScore(es + ms) == SortByScore(ms) + es
    decreases |es|
  {
    if es == [] {
      assert es + ms == ms;
    } else {
      var s := es + ms;
      assert s[0] == es[0];
      assert s[1..] == es[1..] + ms;
      SortStagesLast(es[1..], ms);
      SortAbove(ms, 0);
      var sm := SortByScore(ms);
      assert Insert(es[0], es[1..]) == [es[0]] + es[1..];
      InsertBelow(es[0], sm, es[1..]);
      assert es == [es[0]] + es[1..];
    }
  }
}
