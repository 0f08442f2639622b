/**
 The order in which std::map and std::set keep strings: lexicographic by character. Loops over such a container
 visit the keys as `SortedKeys` lists them.
 */
module Order {

  predicate Less(a: string, b: string) {
    b != [] && (a == [] || a[0] < b[0] || (a[0] == b[0] && Less(a[1..], b[1..])))
  }

  lemma {:induction false} LessTransitive(a: string, b: string, c: string)
    requires Less(a, b) && Less(b, c)
    ensures Less(a, c)
    decreases |a|
  {
    if a != [] && a[0] == b[0] == c[0] {
      LessTransitive(a[1..], b[1..], c[1..]);
    }
  }

  lemma {:induction false} LessTrichotomy(a: string, b: string)
    ensures Less(a, b) || Less(b, a) || a == b
    ensures !(Less(a, b) && Less(b, a))
    ensures a == b ==> !Less(a, b)
    decreases |a|
  {
    if a != [] && b != [] {
      LessTrichotomy(a[1..], b[1..]);
      if a[0] == b[0] && a[1..] == b[1..] {
        assert a == [a[0]] + a[1..] && b == [b[0]] + b[1..];
      }
    }
  }

  predicate IsFirst(k: string, s: set<string>) {
    k in s && forall x :: x in s ==> x == k || Less(k, x)
  }

  lemma {:induction false} FirstExists(s: set<string>)
    requires s != {}
    ensures exists k :: IsFirst(k, s)
    decreases |s|
  {
    var x :| x in s;
    if s == {x} {
      assert IsFirst(x, s);
    } else {
      FirstExists(s - {x});
      var y :| IsFirst(y, s - {x});
      LessTrichotomy(x, y);
      if Less(x, y) {
        forall z | z in s && z != x && z != y ensures Less(x, z) { LessTransitive(x, y, z); }
        assert IsFirst(x, s);
      } else {
        assert IsFirst(y, s);
      }
    }
  }

  lemma FirstUnique(s: set<string>, k: string, l: string)
    requires IsFirst(k, s) && IsFirst(l, s)
    ensures k == l
  {
    LessTrichotomy(k, l);
  }

  function First(s: set<string>): (k: string)
    requires s != {}
    ensures IsFirst(k, s)
  {
    FirstExists(s);
    assert forall a, b | IsFirst(a, s) && IsFirst(b, s) :: a == b by {
      forall a, b | IsFirst(a, s) && IsFirst(b, s) ensures a == b { FirstUnique(s, a, b); }
    }
    var k :| k in s && IsFirst(k, s);
    k
  }

  function SortedKeys(s: set<string>): (keys: seq<string>)
    ensures forall k :: k in keys <==> k in s
    ensures |keys| == |s|
    decreases |s|
  {
    if s == {} then [] else
      var k := First(s);
      [k] + SortedKeys(s - {k})
  }

  /** Each key is listed once, smaller keys first. */
  lemma {:induction false} KeysAreSorted(s: set<string>, i: nat, j: nat)
    requires i < j < |SortedKeys(s)|
    ensures Less(SortedKeys(s)[i], SortedKeys(s)[j])
    decreases |s|
  {
    var k := First(s);
    var rest := SortedKeys(s - {k});
    if i == 0 {
      assert SortedKeys(s)[j] == rest[j - 1] && rest[j - 1] in rest;
    } else {
      KeysAreSorted(s - {k}, i - 1, j - 1);
    }
  }

  lemma KeysDistinct(s: set<string>)
    ensures forall i, j :: 0 <= i < j < |SortedKeys(s)| ==> SortedKeys(s)[i] != SortedKeys(s)[j]
  {
    var keys := SortedKeys(s);
    forall i, j | 0 <= i < j < |keys| ensures keys[i] != keys[j] {
      KeysAreSorted(s, i, j);
      LessTrichotomy(keys[i], keys[j]);
    }
  }

  lemma KeyOrder(s: set<string>, i: nat, j: nat)
    requires i < |SortedKeys(s)| && j < |SortedKeys(s)|
    ensures Less(SortedKeys(s)[i], SortedKeys(s)[j]) <==> i < j
  {
    LessTrichotomy(SortedKeys(s)[i], SortedKeys(s)[j]);
    if i < j { KeysAreSorted(s, i, j); }
    if j < i { KeysAreSorted(s, j, i); }
  }
}
