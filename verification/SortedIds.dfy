/**
 The byte-wise order of identifiers and the sort the lease manager applies to what it
 collected from a map. Go leaves the order of a map iteration open; after the sort it is gone.
*/
module SortedIds {

  predicate Less(a: string, b: string) {
    |b| > 0 && (|a| == 0 || a[0] < b[0] || (a[0] == b[0] && Less(a[1..], b[1..])))
  }

  lemma {:induction false} LessTotal(a: string, b: string)
    ensures a == b || Less(a, b) || Less(b, a)
  {
    if |a| > 0 && |b| > 0 && a[0] == b[0] {
      LessTotal(a[1..], b[1..]);
      assert a == [a[0]] + a[1..] && b == [b[0]] + b[1..];
    }
  }

  lemma {:induction false} LessTransitive(a: string, b: string, c: string)
    requires Less(a, b) && Less(b, c)
    ensures Less(a, c)
  {
    if |a| > 0 && a[0] == b[0] == c[0] {
      LessTransitive(a[1..], b[1..], c[1..]);
    }
  }

  lemma {:induction false} LessIrreflexive(a: string)
    ensures !Less(a, a)
  {
    if |a| > 0 {
      LessIrreflexive(a[1..]);
    }
  }

  ghost predicate Ascending(s: seq<string>) {
    forall i, j :: 0 <= i < j < |s| ==> Less(s[i], s[j])
  }

  // One insertion of an insertion sort.
  method Insert(x: string, s: seq<string>) returns (r: seq<string>)
    requires Ascending(s) && x !in s
    ensures Ascending(r) && |r| == |s| + 1
    ensures forall y :: y in r <==> y == x || y in s
  {
    var k := 0;
    while k < |s| && Less(s[k], x)
      invariant 0 <= k <= |s|
      invariant forall i :: 0 <= i < k ==> Less(s[i], x)
    {
      k := k + 1;
    }
    r := s[..k] + [x] + s[k..];
    forall j | k <= j < |s| ensures Less(x, s[j]) {
      LessTotal(x, s[k]);
      if k < j {
        LessTransitive(x, s[k], s[j]);
      }
    }
    forall y ensures y in r <==> y == x || y in s {
      assert s == s[..k] + s[k..];
    }
  }

  // sort.Strings over identifiers collected from a map, in whatever order they came.
  method Sort(ids: set<string>) returns (order: seq<string>)
    ensures Ascending(order) && |order| == |ids|
    ensures forall id :: id in order <==> id in ids
  {
    order := [];
    var todo := ids;
    while todo != {}
      invariant todo <= ids && Ascending(order) && |order| + |todo| == |ids|
      invariant forall id :: id in order <==> id in ids - todo
    {
      var id :| id in todo;
      order := Insert(id, order);
      todo := todo - {id};
    }
  }

  // There is one ascending order of a set of identifiers, so what the sort returns does not
  // depend on the iteration order it started from.
  lemma {:induction false} AscendingUnique(a: seq<string>, b: seq<string>)
    requires Ascending(a) && Ascending(b)
    requires forall id :: id in a <==> id in b
    ensures a == b
  {
    FirstIsShared(a, b);
    FirstIsShared(b, a);
    if a == [] {
    } else {
      FirstIsLeast(a, b[0]);
      FirstIsLeast(b, a[0]);
      if a[0] != b[0] {
        LessTransitive(a[0], b[0], a[0]);
        LessIrreflexive(a[0]);
      }
      TailElements(a);
      TailElements(b);
      AscendingUnique(a[1..], b[1..]);
      assert a == [a[0]] + a[1..] && b == [b[0]] + b[1..];
    }
  }

  lemma FirstIsShared(a: seq<string>, b: seq<string>)
    requires forall id :: id in a <==> id in b
    ensures a != [] ==> b != [] && a[0] in b
  {
    if a != [] {
      assert a[0] in a;
    }
  }

  lemma FirstIsLeast(a: seq<string>, x: string)
    requires Ascending(a) && x in a
    ensures x == a[0] || Less(a[0], x)
  {
  }

  lemma TailElements(a: seq<string>)
    requires Ascending(a) && a != []
    ensures forall id :: id in a[1..] <==> id in a && id != a[0]
  {
    LessIrreflexive(a[0]);
    forall id ensures id in a[1..] <==> id in a && id != a[0] {
      assert a == [a[0]] + a[1..];
    }
  }
}
