/**
  The order in which an S3 listing returns keys: ascending, comparing
  characters by code point, which for Unicode scalar values is the order
  of their UTF-8 bytes.
 */
module KeyOrder {

  /** `a` comes strictly before `b`. */
  predicate Less(a: string, b: string)
    decreases |a|
  {
    |b| > 0 && (|a| == 0 || a[0] < b[0] || (a[0] == b[0] && Less(a[1..], b[1..])))
  }

  lemma {:induction false} LessIrreflexive(a: string)
    ensures !Less(a, a)
    decreases |a|
  {
    if |a| > 0 {
      LessIrreflexive(a[1..]);
    }
  }

  lemma {:induction false} LessTransitive(a: string, b: string, c: string)
    requires Less(a, b) && Less(b, c)
    ensures Less(a, c)
    decreases |a|
  {
    if |a| > 0 && a[0] == b[0] && b[0] == c[0] {
      LessTransitive(a[1..], b[1..], c[1..]);
    }
  }

  lemma {:induction false} LessTotal(a: string, b: string)
    requires a != b
    ensures Less(a, b) || Less(b, a)
    decreases |a|
  {
    if |a| > 0 && |b| > 0 && a[0] == b[0] {
      assert a == [a[0]] + a[1..] && b == [b[0]] + b[1..];
      LessTotal(a[1..], b[1..]);
    }
  }

  lemma LessAsymmetric(a: string, b: string)
    requires Less(a, b)
    ensures !Less(b, a)
  {
    if Less(b, a) {
      LessTransitive(a, b, a);
      LessIrreflexive(a);
    }
  }

  /** Strictly ascending, hence without repetition. */
  predicate Sorted(s: seq<string>) {
    forall i, j :: 0 <= i < j < |s| ==> Less(s[i], s[j])
  }

  /** `k` put into its place in a sorted sequence that lacks it. */
  function Insert(s: seq<string>, k: string): (r: seq<string>)
    requires Sorted(s) && k !in s
    ensures Sorted(r) && |r| == |s| + 1
    ensures forall x :: x in r <==> x in s || x == k
  {
    if s == [] then [k]
    else if Less(k, s[0]) then
      assert forall j :: 0 <= j < |s| ==> Less(k, s[j]) by {
        forall j | 0 < j < |s| ensures Less(k, s[j]) {
          LessTransitive(k, s[0], s[j]);
        }
      }
      [k] + s
    else
      LessTotal(k, s[0]);
      var rest := Insert(s[1..], k);
      assert forall x :: x in rest ==> Less(s[0], x) by {
        forall x | x in rest ensures Less(s[0], x) {
          if x != k {
            var j :| 0 <= j < |s[1..]| && s[1..][j] == x;
            assert s[j + 1] == x;
          }
        }
      }
      var r := [s[0]] + rest;
      assert forall j :: 0 < j < |r| ==> r[j] in rest by {
        forall j | 0 < j < |r| ensures r[j] in rest {
          assert r[j] == rest[j - 1];
        }
      }
      r
  }

  /** The keys of a set in ascending order. */
  method SortedKeys(keys: set<string>) returns (s: seq<string>)
    ensures Sorted(s) && |s| == |keys|
    ensures forall k :: k in s <==> k in keys
  {
    s := [];
    var remaining := keys;
    while remaining != {}
      invariant remaining <= keys
      invariant Sorted(s) && |s| + |remaining| == |keys|
      invariant forall k :: k in s <==> k in keys && k !in remaining
      decreases |remaining|
    {
      var k :| k in remaining;
      s := Insert(s, k);
      remaining := remaining - {k};
    }
  }
}
