/** The stable descending sort by a key that the liquidation uses on pledges and on loans. */
module Sorting {
  import opened Greedy

  function Map<T>(f: T -> real, s: seq<T>): (r: seq<real>)
    ensures |r| == |s|
    ensures forall i | 0 <= i < |s| :: r[i] == f(s[i])
  {
    seq(|s|, i requires 0 <= i < |s| => f(s[i]))
  }

  /** After the entries whose key is at least that of `x`. */
  function Insert<T>(key: T -> real, x: T, s: seq<T>): seq<T> {
    if s == [] then [x]
    else if key(s[0]) >= key(x) then [s[0]] + Insert(key, x, s[1..])
    else [x] + s
  }

  function Sort<T>(key: T -> real, s: seq<T>): seq<T> {
    if s == [] then [] else Insert(key, s[|s| - 1], Sort(key, s[..|s| - 1]))
  }

  lemma {:induction false} InsertElements<T>(key: T -> real, x: T, s: seq<T>)
    ensures multiset(Insert(key, x, s)) == multiset(s) + multiset{x}
  {
    if s != [] && key(s[0]) >= key(x) {
      InsertElements(key, x, s[1..]);
      assert s == [s[0]] + s[1..];
    }
  }

  lemma {:induction false} SortElements<T>(key: T -> real, s: seq<T>)
    ensures multiset(Sort(key, s)) == multiset(s)
  {
    if s != [] {
      var n := |s| - 1;
      SortElements(key, s[..n]);
      InsertElements(key, s[n], Sort(key, s[..n]));
      assert s == s[..n] + [s[n]];
    }
  }

  lemma {:induction false} InsertSum<T>(key: T -> real, f: T -> real, x: T, s: seq<T>)
    ensures Sum(Map(f, Insert(key, x, s))) == Sum(Map(f, s)) + f(x)
  {
    var r := Insert(key, x, s);
    if s != [] && key(s[0]) >= key(x) {
      InsertSum(key, f, x, s[1..]);
      assert Map(f, s)[1..] == Map(f, s[1..]);
      assert Map(f, r)[1..] == Map(f, Insert(key, x, s[1..]));
    } else {
      assert Map(f, r)[1..] == Map(f, s);
    }
  }

  lemma {:induction false} SumLast(vs: seq<real>)
    requires vs != []
    ensures Sum(vs) == Sum(vs[..|vs| - 1]) + vs[|vs| - 1]
  {
    if |vs| > 1 {
      SumLast(vs[1..]);
      assert vs[1..][..|vs| - 2] == vs[..|vs| - 1][1..];
    }
  }

  lemma {:induction false} PrefixNothing<T>(f: T -> real, s: seq<T>)
    ensures Sum(Map(f, s[..0])) == 0.0
  {
  }

  lemma {:induction false} PrefixSum<T>(f: T -> real, s: seq<T>, i: nat)
    requires i < |s|
    ensures Sum(Map(f, s[..i + 1])) == Sum(Map(f, s[..i])) + f(s[i])
  {
    SumLast(Map(f, s[..i + 1]));
    assert Map(f, s[..i + 1])[..i] == Map(f, s[..i]);
  }

  /** Sorting changes no total, whatever is totalled. */
  lemma {:induction false} SortSum<T>(key: T -> real, f: T -> real, s: seq<T>)
    ensures Sum(Map(f, Sort(key, s))) == Sum(Map(f, s))
  {
    if s != [] {
      var n := |s| - 1;
      SortSum(key, f, s[..n]);
      InsertSum(key, f, s[n], Sort(key, s[..n]));
      SumLast(Map(f, s));
      assert Map(f, s)[..n] == Map(f, s[..n]);
    }
  }

  lemma {:induction false} InsertDescending<T>(key: T -> real, x: T, s: seq<T>)
    requires Descending(Map(key, s))
    ensures Descending(Map(key, Insert(key, x, s)))
    ensures Insert(key, x, s) != []
    ensures Insert(key, x, s)[0] == x || (s != [] && Insert(key, x, s)[0] == s[0])
  {
    var vs := Map(key, Insert(key, x, s));
    if s != [] {
      assert forall i | 0 < i < |s| :: Map(key, s)[i] <= Map(key, s)[0];
      if key(s[0]) >= key(x) {
        DescendingTail(Map(key, s));
        assert Map(key, s)[1..] == Map(key, s[1..]);
        InsertDescending(key, x, s[1..]);
        var t := Map(key, Insert(key, x, s[1..]));
        assert s[1..] != [] ==> s[1..][0] == s[1] && Map(key, s)[1] == key(s[1]);
        assert t[0] == key(Insert(key, x, s[1..])[0]) <= key(s[0]);
        assert vs == [key(s[0])] + t;
        assert forall i | 0 < i < |vs| :: vs[i] == t[i - 1] <= t[0];
      } else {
        assert vs == [key(x)] + Map(key, s);
      }
    }
  }

  lemma {:induction false} SortDescending<T>(key: T -> real, s: seq<T>)
    ensures Descending(Map(key, Sort(key, s)))
  {
    if s != [] {
      SortDescending(key, s[..|s| - 1]);
      InsertDescending(key, s[|s| - 1], Sort(key, s[..|s| - 1]));
    }
  }
}
