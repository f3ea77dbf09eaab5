/**
 * The label bookkeeping of `load` and of the step functions: the number of
 * classes is the number of distinct labels, a OneHotEncoder turns each label into
 * a 0/1 row over the sorted categories, and `argmax` of such a row gives back the
 * class index used as the cross-entropy target.
 */
module Labels {
  import opened Wrappers

  /** Python's `<` on str: lexicographic by code point, a proper prefix first. */
  predicate StrLess(a: string, b: string)
    decreases |a|
  {
    if |a| == 0 then |b| > 0
    else if |b| == 0 then false
    else if a[0] != b[0] then a[0] < b[0]
    else StrLess(a[1..], b[1..])
  }

  lemma {:induction false} StrLessIrreflexive(a: string)
    ensures !StrLess(a, a)
    decreases |a|
  {
    if |a| > 0 {
      StrLessIrreflexive(a[1..]);
    }
  }

  lemma {:induction false} StrLessTransitive(a: string, b: string, c: string)
    requires StrLess(a, b) && StrLess(b, c)
    ensures StrLess(a, c)
    decreases |a|
  {
    if |a| > 0 && a[0] == b[0] && b[0] == c[0] {
      StrLessTransitive(a[1..], b[1..], c[1..]);
    }
  }

  lemma {:induction false} StrLessTotal(a: string, b: string)
    requires a != b
    ensures StrLess(a, b) || StrLess(b, a)
    decreases |a|
  {
    if |a| > 0 && |b| > 0 && a[0] == b[0] {
      assert a == [a[0]] + a[1..] && b == [b[0]] + b[1..];
      StrLessTotal(a[1..], b[1..]);
    }
  }

  predicate StrictlySorted(s: seq<string>) {
    forall i, j :: 0 <= i < j < |s| ==> StrLess(s[i], s[j])
  }

  lemma SortedIsDistinct(s: seq<string>)
    requires StrictlySorted(s)
    ensures Distinct(s)
  {
    forall i, j | 0 <= i < j < |s| ensures s[i] != s[j] {
      StrLessIrreflexive(s[i]);
    }
  }

  /** Adds `x` to a sorted list of categories unless it is already there. */
  function Insert(s: seq<string>, x: string): (r: seq<string>)
    ensures forall y :: y in r <==> y in s || y == x
    ensures StrictlySorted(s) ==> StrictlySorted(r)
  {
    if s == [] then [x]
    else if x == s[0] then s
    else if StrLess(x, s[0]) then
      assert StrictlySorted(s) ==> StrictlySorted([x] + s) by {
        if StrictlySorted(s) {
          forall j | 0 < j < |s| ensures StrLess(x, s[j]) { StrLessTransitive(x, s[0], s[j]); }
        }
      }
      [x] + s
    else
      var rest := Insert(s[1..], x);
      assert StrictlySorted(s) ==> StrictlySorted([s[0]] + rest) by {
        if StrictlySorted(s) {
          StrLessTotal(x, s[0]);
          assert forall y :: y in rest ==> StrLess(s[0], y) by {
            forall y | y in rest ensures StrLess(s[0], y) {
              if y != x {
                var j :| 0 <= j < |s[1..]| && s[1..][j] == y;
                assert s[j + 1] == y;
              }
            }
          }
          var r := [s[0]] + rest;
          forall i, j | 0 <= i < j < |r| ensures StrLess(r[i], r[j]) {
            if i == 0 {
              assert r[j] in rest;
            } else {
              assert r[i] == rest[i - 1] && r[j] == rest[j - 1];
            }
          }
        }
      }
      [s[0]] + rest
  }

  /** The categories a OneHotEncoder fits on a label column: its distinct values, sorted. */
  function Categories(labels: seq<string>): (r: seq<string>)
    ensures StrictlySorted(r)
    ensures forall y :: y in r <==> y in labels
  {
    if labels == [] then []
    else
      var init := labels[..|labels| - 1];
      assert labels == init + [labels[|labels| - 1]];
      Insert(Categories(init), labels[|labels| - 1])
  }

  /** `len(adata.obs[target_col].unique())` */
  function NClasses(labels: seq<string>): nat {
    |set l | l in labels|
  }

  lemma {:induction false} DistinctCardinality(s: seq<string>)
    requires Distinct(s)
    ensures |set y | y in s| == |s|
    decreases |s|
  {
    if s != [] {
      var tail := s[1..];
      assert Distinct(tail) by {
        forall i, j | 0 <= i < j < |tail| ensures tail[i] != tail[j] {
          assert tail[i] == s[i + 1] && tail[j] == s[j + 1];
        }
      }
      DistinctCardinality(tail);
      assert (set y | y in s) == (set y | y in tail) + {s[0]};
      assert s[0] !in tail;
    }
  }

  /** The encoder has exactly as many categories as the label column has distinct values. */
  lemma CategoryCount(labels: seq<string>)
    ensures |Categories(labels)| == NClasses(labels)
  {
    var cats := Categories(labels);
    SortedIsDistinct(cats);
    DistinctCardinality(cats);
    assert (set y | y in cats) == (set l | l in labels);
  }

  /** The encoded row of one label: 1.0 at the label's category, 0.0 elsewhere. */
  function OneHot(cats: seq<string>, name: string): seq<int> {
    seq(|cats|, j requires 0 <= j < |cats| => if cats[j] == name then 1 else 0)
  }

  /** `encoder.fit_transform(labels).toarray()`, one row per cell. */
  function Encode(labels: seq<string>): seq<seq<int>> {
    var cats := Categories(labels);
    seq(|labels|, i requires 0 <= i < |labels| => OneHot(cats, labels[i]))
  }

  /** `torch.argmax` of a row: the first index holding the largest value. */
  function ArgMax(v: seq<int>): (r: nat)
    requires |v| > 0
    ensures r < |v|
    ensures forall j :: 0 <= j < |v| ==> v[j] <= v[r]
    ensures forall j :: 0 <= j < r ==> v[j] < v[r]
  {
    if |v| == 1 then 0
    else
      var k := ArgMax(v[..|v| - 1]);
      assert forall j :: 0 <= j < |v| - 1 ==> v[..|v| - 1][j] == v[j];
      if v[|v| - 1] > v[k] then |v| - 1 else k
  }

  function Sum(v: seq<int>): int {
    if v == [] then 0 else Sum(v[..|v| - 1]) + v[|v| - 1]
  }

  lemma {:induction false} OneHotSum(cats: seq<string>, name: string)
    requires Distinct(cats)
    ensures Sum(OneHot(cats, name)) == if name in cats then 1 else 0
    decreases |cats|
  {
    var v := OneHot(cats, name);
    if cats != [] {
      var init := cats[..|cats| - 1];
      assert v[..|v| - 1] == OneHot(init, name);
      assert Distinct(init);
      OneHotSum(init, name);
      assert cats == init + [cats[|cats| - 1]];
      if name in init {
        var j :| 0 <= j < |init| && init[j] == name;
        assert cats[j] == name;
      }
    }
  }

  /**
   * Decoding an encoded label: argmax of its one-hot row is the position of the
   * label among the categories, the row has one entry per category, and its
   * entries sum to 1.
   */
  lemma OneHotRoundTrip(cats: seq<string>, name: string)
    requires Distinct(cats)
    requires name in cats
    ensures |OneHot(cats, name)| == |cats|
    ensures cats[ArgMax(OneHot(cats, name))] == name
    ensures Sum(OneHot(cats, name)) == 1
  {
    var v := OneHot(cats, name);
    var j :| 0 <= j < |cats| && cats[j] == name;
    assert v[j] == 1;
    OneHotSum(cats, name);
  }

  /**
   * Every cell's encoded label is a one-hot row of length n_classes, and argmax of
   * it names the cell's own label; two cells get the same class index exactly
   * when they carry the same label.
   */
  lemma EncodedLabels(labels: seq<string>)
    ensures |Encode(labels)| == |labels|
    ensures forall i :: 0 <= i < |labels| ==>
      && |Encode(labels)[i]| == NClasses(labels)
      && Sum(Encode(labels)[i]) == 1
      && Categories(labels)[ArgMax(Encode(labels)[i])] == labels[i]
    ensures forall i, j :: 0 <= i < |labels| && 0 <= j < |labels| ==>
      (ArgMax(Encode(labels)[i]) == ArgMax(Encode(labels)[j]) <==> labels[i] == labels[j])
  {
    var cats := Categories(labels);
    var enc := Encode(labels);
    CategoryCount(labels);
    SortedIsDistinct(cats);
    forall i | 0 <= i < |labels|
      ensures |enc[i]| == NClasses(labels) && Sum(enc[i]) == 1 && cats[ArgMax(enc[i])] == labels[i]
    {
      assert labels[i] in cats;
      OneHotRoundTrip(cats, labels[i]);
    }
  }
}
