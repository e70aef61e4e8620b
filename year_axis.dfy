/** The shared year axis, `sorted(set(years))`: the distinct years of a list,
    in strictly ascending order. */
module YearAxis {
  import opened ChartTypes

  /** `s` with `x` added in its place, unless it is already there. */
  function Insert(x: int, s: seq<int>): (r: seq<int>)
    requires StrictlyAscending(s)
    ensures StrictlyAscending(r)
    ensures forall y :: y in r <==> (y in s || y == x)
  {
    if s == [] then [x]
    else if x < s[0] then [x] + s
    else if x == s[0] then s
    else
      var rest := Insert(x, s[1..]);
      assert forall y :: y in s[1..] ==> s[0] < y by {
        forall y | y in s[1..] ensures s[0] < y {
          var k :| 0 <= k < |s[1..]| && s[1..][k] == y;
          assert s[k + 1] == y;
        }
      }
      PrependAscending(s[0], rest);
      [s[0]] + rest
  }

  lemma PrependAscending(h: int, t: seq<int>)
    requires StrictlyAscending(t)
    requires forall y :: y in t ==> h < y
    ensures StrictlyAscending([h] + t)
  {
    forall i, j | 0 <= i < j < |[h] + t|
      ensures ([h] + t)[i] < ([h] + t)[j]
    {
      if i == 0 {
        assert ([h] + t)[j] == t[j - 1];
        assert t[j - 1] in t;
      } else {
        assert ([h] + t)[i] == t[i - 1] && ([h] + t)[j] == t[j - 1];
      }
    }
  }

  /** The distinct elements of `xs`, in ascending order. */
  function SortedUnique(xs: seq<int>): (r: seq<int>)
    ensures StrictlyAscending(r)
    ensures forall y :: y in r <==> y in xs
  {
    if xs == [] then []
    else
      var init := xs[..|xs| - 1];
      assert xs == init + [xs[|xs| - 1]];
      Insert(xs[|xs| - 1], SortedUnique(init))
  }

  /** Two strictly ascending sequences with the same elements are equal, so
      SortedUnique is the one strictly ascending listing of the years. */
  lemma {:induction false} AscendingDeterminedByElements(a: seq<int>, b: seq<int>)
    requires StrictlyAscending(a) && StrictlyAscending(b)
    requires forall y :: y in a <==> y in b
    ensures a == b
  {
    if a == [] || b == [] {
      // An element of whichever one is non-empty would have to be in both.
      var w := if a != [] then a[0] else if b != [] then b[0] else 0;
      assert (a != [] ==> w in a) && (b != [] ==> w in b);
    } else {
      assert a[0] == b[0] by {
        assert a[0] in a && b[0] in b;
        assert a[0] in b && b[0] in a;
      }
      forall y
        ensures y in a[1..] <==> y in b[1..]
      {
        if y in a[1..] {
          assert y in a && y != a[0];
        }
        if y in b[1..] {
          assert y in b && y != b[0];
        }
        if y in a && y != a[0] {
          var i :| 0 <= i < |a| && a[i] == y;
          assert a[1..][i - 1] == y;
        }
        if y in b && y != b[0] {
          var i :| 0 <= i < |b| && b[i] == y;
          assert b[1..][i - 1] == y;
        }
      }
      AscendingDeterminedByElements(a[1..], b[1..]);
      assert a == [a[0]] + a[1..];
      assert b == [b[0]] + b[1..];
    }
  }

  lemma SortedUniqueIsTheAxis(xs: seq<int>, axis: seq<int>)
    requires StrictlyAscending(axis)
    requires forall y :: y in axis <==> y in xs
    ensures axis == SortedUnique(xs)
  {
    AscendingDeterminedByElements(axis, SortedUnique(xs));
  }
}
