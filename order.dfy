/** Python's ordering of strings (lexicographic by code point) and
    `sorted()` of a set of keys. */
module Order {

  /** `a < b` for Python strings: the first differing character decides, and
      a proper prefix comes first. */
  predicate Less(a: string, b: string)
    decreases |a|
  {
    |b| > 0 && (|a| == 0 || a[0] < b[0] || (a[0] == b[0] && Less(a[1..], b[1..])))
  }

  lemma {:induction false} LessIrreflexive(a: string)
    ensures !Less(a, a)
  {
    if |a| > 0 {
      LessIrreflexive(a[1..]);
    }
  }

  lemma {:induction false} LessTransitive(a: string, b: string, c: string)
    requires Less(a, b) && Less(b, c)
    ensures Less(a, c)
  {
    if |a| > 0 && a[0] == b[0] && b[0] == c[0] {
      LessTransitive(a[1..], b[1..], c[1..]);
    }
  }

  lemma {:induction false} LessTotal(a: string, b: string)
    ensures a == b || Less(a, b) || Less(b, a)
  {
    if |a| > 0 && |b| > 0 && a[0] == b[0] {
      LessTotal(a[1..], b[1..]);
      if a[1..] == b[1..] {
        assert a == [a[0]] + a[1..] && b == [b[0]] + b[1..];
      }
    }
  }

  lemma {:induction false} LessAsymmetric(a: string, b: string)
    ensures !(Less(a, b) && Less(b, a))
  {
    if Less(a, b) && Less(b, a) {
      LessTransitive(a, b, a);
      LessIrreflexive(a);
    }
  }

  lemma LessTotalAll()
    ensures forall a: string, b: string :: a == b || Less(a, b) || Less(b, a)
  {
    forall a: string, b: string
      ensures a == b || Less(a, b) || Less(b, a)
    {
      LessTotal(a, b);
    }
  }

  predicate IsLeast(m: string, s: set<string>)
  {
    m in s && forall x :: x in s ==> !Less(x, m)
  }

  /** Every non-empty finite set of strings has a least element. */
  lemma {:induction false} LeastExists(s: set<string>)
    requires s != {}
    ensures exists m :: IsLeast(m, s)
    decreases |s|
  {
    var x :| x in s;
    if s == {x} {
      LessIrreflexive(x);
      assert IsLeast(x, s);
    } else {
      var rest := s - {x};
      LeastExists(rest);
      var m :| IsLeast(m, rest);
      LessTotal(x, m);
      if Less(x, m) {
        forall y | y in s
          ensures !Less(y, x)
        {
          if y == x {
            LessIrreflexive(x);
          } else if Less(y, x) {
            LessTransitive(y, x, m);
          }
        }
        assert IsLeast(x, s);
      } else {
        LessAsymmetric(x, m);
        assert IsLeast(m, s);
      }
    }
  }

  /** The least element of a non-empty set of strings (LeastBelow says it is
      below every other element). */
  function Least(s: set<string>): (m: string)
    requires s != {}
    ensures m in s
  {
    LeastExists(s);
    LessTotalAll();
    var m :| IsLeast(m, s);
    m
  }

  lemma LeastBelow(s: set<string>)
    requires s != {}
    ensures forall x :: x in s && x != Least(s) ==> Less(Least(s), x)
  {
    LeastExists(s);
    LessTotalAll();
  }

  /** `sorted(s)` for a set of strings: as many elements as s, each from s
      (SortedComplete and SortedIncreasing give the rest). */
  function SortedKeys(s: set<string>): (r: seq<string>)
    ensures |r| == |s|
    ensures forall i :: 0 <= i < |r| ==> r[i] in s
    decreases |s|
  {
    if s == {} then []
    else
      var m := Least(s);
      [m] + SortedKeys(s - {m})
  }

  /** `sorted(s)` lists every element of s. */
  lemma {:induction false} SortedComplete(s: set<string>)
    ensures forall k :: k in s ==> k in SortedKeys(s)
    decreases |s|
  {
    if s != {} {
      SortedComplete(s - {Least(s)});
    }
  }

  /** `sorted(s)` lists the elements of s in strictly increasing order. */
  lemma {:induction false} SortedIncreasing(s: set<string>)
    ensures forall i, j :: 0 <= i < j < |SortedKeys(s)| ==> Less(SortedKeys(s)[i], SortedKeys(s)[j])
    decreases |s|
  {
    if s != {} {
      var m := Least(s);
      LeastBelow(s);
      SortedIncreasing(s - {m});
      var r := SortedKeys(s);
      assert r == [m] + SortedKeys(s - {m});
      forall i, j | 0 <= i < j < |r|
        ensures Less(r[i], r[j])
      {
        if i == 0 {
          assert r[j] in s - {m};
        } else {
          assert r[i] == SortedKeys(s - {m})[i - 1];
          assert r[j] == SortedKeys(s - {m})[j - 1];
        }
      }
    }
  }

  /** A strictly increasing sequence holds no element twice. */
  lemma SortedDistinct(r: seq<string>)
    requires forall i, j :: 0 <= i < j < |r| ==> Less(r[i], r[j])
    ensures forall i, j :: 0 <= i < j < |r| ==> r[i] != r[j]
  {
    forall i, j | 0 <= i < j < |r|
      ensures r[i] != r[j]
    {
      LessIrreflexive(r[i]);
    }
  }
}
