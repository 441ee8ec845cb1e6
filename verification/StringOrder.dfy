/** Code-point order of strings, and sorting by it. */
module StringOrder {

  /** Code-point order of strings. */
  predicate Less(a: string, b: string) {
    b != "" && (a == "" || a[0] < b[0] || (a[0] == b[0] && Less(a[1..], b[1..])))
  }

  lemma {:induction false} LessAt(a: string, b: string, i: nat)
    requires i < |a| && i < |b| && a[..i] == b[..i] && a[i] < b[i]
    ensures Less(a, b)
  {
    if i > 0 {
      assert a[0] == a[..i][0] == b[..i][0] == b[0];
      assert a[1..][..i - 1] == a[..i][1..] == b[..i][1..] == b[1..][..i - 1];
      LessAt(a[1..], b[1..], i - 1);
    }
  }

  lemma {:induction false} LessIrreflexive(a: string)
    ensures !Less(a, a)
  {
    if a != "" {
      LessIrreflexive(a[1..]);
    }
  }

  lemma {:induction false} LessTransitive(a: string, b: string, c: string)
    requires Less(a, b) && Less(b, c)
    ensures Less(a, c)
  {
    if a != "" && a[0] == b[0] && b[0] == c[0] {
      LessTransitive(a[1..], b[1..], c[1..]);
    }
  }

  lemma {:induction false} LessTotal(a: string, b: string)
    ensures a == b || Less(a, b) || Less(b, a)
  {
    if a != "" && b != "" && a[0] == b[0] {
      LessTotal(a[1..], b[1..]);
      assert a == [a[0]] + a[1..] && b == [b[0]] + b[1..];
    }
  }

  // ---------------------------------------------------------------- sorting

  function Place(x: string, sorted: seq<string>): (r: seq<string>)
    ensures multiset(r) == multiset(sorted) + multiset{x}
  {
    if sorted == [] || !Less(sorted[0], x) then [x] + sorted
    else
      assert sorted == [sorted[0]] + sorted[1..];
      [sorted[0]] + Place(x, sorted[1..])
  }

  function Sort(items: seq<string>): (r: seq<string>)
    ensures multiset(r) == multiset(items)
  {
    if items == [] then []
    else
      assert items == [items[0]] + items[1..];
      Place(items[0], Sort(items[1..]))
  }

  /** No later string is less than an earlier one. */
  predicate InOrder(s: seq<string>) {
    forall i, j :: 0 <= i < j < |s| ==> !Less(s[j], s[i])
  }

  lemma NotLessTransitive(a: string, b: string, c: string)
    requires !Less(b, a) && !Less(c, b)
    ensures !Less(c, a)
  {
    LessTotal(a, b);
    LessTotal(b, c);
    if Less(a, b) && Less(b, c) {
      LessTransitive(a, b, c);
    }
    LessAsymmetric(a, c);
  }

  lemma LessAsymmetric(a: string, b: string)
    ensures !(Less(a, b) && Less(b, a))
  {
    LessIrreflexive(a);
    if Less(a, b) && Less(b, a) {
      LessTransitive(a, b, a);
    }
  }

  lemma {:induction false} PlaceInOrder(x: string, s: seq<string>)
    requires InOrder(s)
    ensures InOrder(Place(x, s))
  {
    hide Less;
    var r := Place(x, s);
    if s != [] && Less(s[0], x) {
      assert s == [s[0]] + s[1..];
      PlaceInOrder(x, s[1..]);
      LessAsymmetric(s[0], x);
      forall j | 0 < j < |r| ensures !Less(r[j], r[0]) {
        assert r[j] in multiset(Place(x, s[1..]));
        assert r[j] in multiset(s[1..]) + multiset{x};
        if r[j] != x {
          var k :| 0 <= k < |s[1..]| && s[1..][k] == r[j];
          assert s[k + 1] == r[j];
        }
      }
    } else if s != [] {
      forall j | 0 <= j < |s| ensures !Less(s[j], x) {
        LessIrreflexive(s[0]);
        NotLessTransitive(x, s[0], s[j]);
      }
    }
  }

  lemma {:induction false} SortInOrder(items: seq<string>)
    ensures InOrder(Sort(items))
  {
    if items != [] {
      SortInOrder(items[1..]);
      PlaceInOrder(items[0], Sort(items[1..]));
    }
  }

  lemma {:induction false} OrderUnique(a: seq<string>, b: seq<string>)
    requires InOrder(a) && InOrder(b) && multiset(a) == multiset(b)
    ensures a == b
  {
    hide Less;
    if a == [] {
      assert |multiset(b)| == |b| == 0;
    } else {
      assert |multiset(a)| == |a| && |multiset(b)| == |b|;
      FirstLeast(a, b);
      FirstLeast(b, a);
      LessTotal(a[0], b[0]);
      assert a == [a[0]] + a[1..] && b == [b[0]] + b[1..];
      assert multiset(a[1..]) == multiset(a) - multiset{a[0]};
      assert multiset(b[1..]) == multiset(b) - multiset{b[0]};
      OrderUnique(a[1..], b[1..]);
    }
  }

  lemma FirstLeast(a: seq<string>, b: seq<string>)
    requires InOrder(a) && a != [] && b != [] && multiset(a) == multiset(b)
    ensures !Less(b[0], a[0])
  {
    hide Less;
    assert b[0] in multiset(a);
    var k :| 0 <= k < |a| && a[k] == b[0];
    LessIrreflexive(a[0]);
  }

  /** Sorting forgets exactly the order: two lists sort alike when they hold the same strings as often. */
  lemma SortIsCanonical(a: seq<string>, b: seq<string>)
    ensures Sort(a) == Sort(b) <==> multiset(a) == multiset(b)
  {
    hide Less, Sort;
    SortInOrder(a);
    SortInOrder(b);
    if multiset(a) == multiset(b) {
      OrderUnique(Sort(a), Sort(b));
    }
  }
}
