/**
 * The distinct-value lists of getUniqueDistricts and getUniqueTypes:
 * `features.map(f => f.attributes[column]).sort()`, behind the status check
 * of the response.
 */
module Distinct {
  import opened Wrappers
  import opened Config
  import opened Response

  /** One feature's `attributes` object, reduced to its string-valued attributes. */
  type Attributes = map<string, string>

  /** `f.attributes[column]`: the value, or None for `undefined`. */
  function Attribute(attributes: Attributes, column: string): Option<string>
  {
    if column in attributes then Some(attributes[column]) else None
  }

  /** `features.map(f => f.attributes[column])`. */
  function Extract(features: seq<Attributes>, column: string): seq<Option<string>>
  {
    seq(|features|, i requires 0 <= i < |features| => Attribute(features[i], column))
  }

  /** Lexicographic order on strings, character code by character code. */
  predicate StrLe(a: string, b: string)
  {
    if a == [] then true
    else if b == [] then false
    else a[0] < b[0] || (a[0] == b[0] && StrLe(a[1..], b[1..]))
  }

  /** The default sort order: strings lexicographically, `undefined` after every string. */
  predicate ValueLe(x: Option<string>, y: Option<string>)
  {
    match (x, y)
    case (Some(a), Some(b)) => StrLe(a, b)
    case (Some(_), None) => true
    case (None, Some(_)) => false
    case (None, None) => true
  }

  lemma {:induction false} StrLeTotal(a: string, b: string)
    ensures StrLe(a, b) || StrLe(b, a)
  {
    if a != [] && b != [] && a[0] == b[0] {
      StrLeTotal(a[1..], b[1..]);
    }
  }

  lemma {:induction false} StrLeAntisymmetric(a: string, b: string)
    requires StrLe(a, b) && StrLe(b, a)
    ensures a == b
  {
    if a != [] {
      StrLeAntisymmetric(a[1..], b[1..]);
      assert a == [a[0]] + a[1..] && b == [b[0]] + b[1..];
    }
  }

  lemma {:induction false} StrLeTransitive(a: string, b: string, c: string)
    requires StrLe(a, b) && StrLe(b, c)
    ensures StrLe(a, c)
  {
    if a != [] && b != [] && c != [] && a[0] == b[0] == c[0] {
      StrLeTransitive(a[1..], b[1..], c[1..]);
    }
  }

  lemma StrLeReflexive(a: string)
    ensures StrLe(a, a)
  {
  }

  /** ValueLe is a total order. */
  lemma ValueLeTotalOrder(x: Option<string>, y: Option<string>, z: Option<string>)
    ensures ValueLe(x, x)
    ensures ValueLe(x, y) || ValueLe(y, x)
    ensures ValueLe(x, y) && ValueLe(y, x) ==> x == y
    ensures ValueLe(x, y) && ValueLe(y, z) ==> ValueLe(x, z)
  {
    if x.Some? {
      StrLeReflexive(x.value);
    }
    if x.Some? && y.Some? {
      StrLeTotal(x.value, y.value);
      if ValueLe(x, y) && ValueLe(y, x) {
        StrLeAntisymmetric(x.value, y.value);
      }
      if z.Some? && ValueLe(x, y) && ValueLe(y, z) {
        StrLeTransitive(x.value, y.value, z.value);
      }
    }
  }

  /** Every neighbouring pair is in order. */
  predicate Sorted(s: seq<Option<string>>)
  {
    forall i :: 0 <= i < |s| - 1 ==> ValueLe(s[i], s[i + 1])
  }

  /** Inserts `x` before the first element it does not come after. */
  function Insert(x: Option<string>, s: seq<Option<string>>): (r: seq<Option<string>>)
    ensures |r| == |s| + 1
    ensures multiset(r) == multiset(s) + multiset{x}
    ensures r[0] == x || (s != [] && r[0] == s[0])
    ensures Sorted(s) ==> Sorted(r)
  {
    if s == [] then [x]
    else if ValueLe(x, s[0]) then [x] + s
    else
      ValueLeTotalOrder(x, s[0], x);
      assert s == [s[0]] + s[1..];
      [s[0]] + Insert(x, s[1..])
  }

  /** `Array.prototype.sort()` on the extracted values, by insertion. */
  function Sort(s: seq<Option<string>>): (r: seq<Option<string>>)
    ensures |r| == |s|
    ensures multiset(r) == multiset(s)
    ensures Sorted(r)
  {
    if s == [] then []
    else
      assert s == [s[0]] + s[1..];
      Insert(s[0], Sort(s[1..]))
  }

  /** In a sorted list every element comes before every later one. */
  lemma {:induction false} SortedAt(s: seq<Option<string>>, i: nat, j: nat)
    requires Sorted(s) && i <= j < |s|
    ensures ValueLe(s[i], s[j])
    decreases j - i
  {
    if i == j {
      ValueLeTotalOrder(s[i], s[i], s[i]);
    } else {
      SortedAt(s, i + 1, j);
      ValueLeTotalOrder(s[i], s[i + 1], s[j]);
    }
  }

  /**
   * A list has only one sorted arrangement: two sorted lists with the same
   * elements are equal. So the sorted result does not depend on how the
   * sort proceeds.
   */
  lemma {:induction false} SortedUnique(a: seq<Option<string>>, b: seq<Option<string>>)
    requires Sorted(a) && Sorted(b) && multiset(a) == multiset(b)
    ensures a == b
  {
    if a == [] {
      assert |b| == |multiset(b)| == 0;
    } else {
      assert |b| == |multiset(b)| == |multiset(a)| == |a|;
      SortedHeadsAgree(a, b);
      SortedTail(a);
      SortedTail(b);
      assert a == [a[0]] + a[1..] && b == [b[0]] + b[1..];
      assert multiset(a[1..]) == multiset(a) - multiset{a[0]};
      assert multiset(b[1..]) == multiset(b) - multiset{a[0]};
      SortedUnique(a[1..], b[1..]);
    }
  }

  lemma SortedTail(s: seq<Option<string>>)
    requires Sorted(s) && s != []
    ensures Sorted(s[1..])
  {
    forall i | 0 <= i < |s| - 2 ensures ValueLe(s[1..][i], s[1..][i + 1]) {
      assert s[1..][i] == s[i + 1] && s[1..][i + 1] == s[i + 2];
    }
  }

  /** Two sorted lists with the same elements start with the same, least, element. */
  lemma SortedHeadsAgree(a: seq<Option<string>>, b: seq<Option<string>>)
    requires Sorted(a) && Sorted(b) && multiset(a) == multiset(b) && a != [] && b != []
    ensures a[0] == b[0]
  {
    assert a[0] in multiset(b) && b[0] in multiset(a);
    var k :| 0 <= k < |b| && b[k] == a[0];
    var m :| 0 <= m < |a| && a[m] == b[0];
    SortedAt(b, 0, k);
    SortedAt(a, 0, m);
    ValueLeTotalOrder(a[0], b[0], a[0]);
  }

  /**
   * The distinct-value list: one entry per returned feature, the values of
   * `column` rearranged into ascending order with `undefined` last.
   */
  function DistinctValues(features: seq<Attributes>, column: string): (r: seq<Option<string>>)
    ensures |r| == |features|
    ensures multiset(r) == multiset(Extract(features, column))
    ensures forall i, j :: 0 <= i < j < |r| ==> ValueLe(r[i], r[j])
  {
    var r := Sort(Extract(features, column));
    forall i, j | 0 <= i < j < |r| ensures ValueLe(r[i], r[j]) {
      SortedAt(r, i, j);
    }
    r
  }

  /** Any sorted rearrangement of the extracted values is the distinct-value list. */
  lemma DistinctValuesDetermined(features: seq<Attributes>, column: string, s: seq<Option<string>>)
    requires Sorted(s) && multiset(s) == multiset(Extract(features, column))
    ensures s == DistinctValues(features, column)
  {
    SortedUnique(s, Sort(Extract(features, column)));
  }

  /** The districts `Porto`, `Aveiro`, `Lisboa` come back as `Aveiro`, `Lisboa`, `Porto`. */
  lemma DistinctValuesExample()
    ensures DistinctValues([map["Distrito" := "Porto"], map["Distrito" := "Aveiro"], map["Distrito" := "Lisboa"]], "Distrito")
      == [Some("Aveiro"), Some("Lisboa"), Some("Porto")]
  {
    var features := [map["Distrito" := "Porto"], map["Distrito" := "Aveiro"], map["Distrito" := "Lisboa"]];
    var extracted := Extract(features, "Distrito");
    assert extracted == [Some("Porto"), Some("Aveiro"), Some("Lisboa")];
    var expected := [Some("Aveiro"), Some("Lisboa"), Some("Porto")];
    DistrictsInOrder();
    assert multiset(expected) == multiset(extracted);
    DistinctValuesDetermined(features, "Distrito", expected);
  }

  lemma DistrictsInOrder()
    ensures Sorted([Some("Aveiro"), Some("Lisboa"), Some("Porto")])
  {
    assert StrLe("Aveiro", "Lisboa") && StrLe("Lisboa", "Porto");
  }

  /**
   * getUniqueDistricts (`field` = District) and getUniqueTypes (`field` =
   * Type) after the request: the response's status decides between the
   * error and the sorted values of that field's column.
   */
  function UniqueValues(api: Api, field: Field, status: int, features: seq<Attributes>): (r: Result<seq<Option<string>>, HttpError>)
    ensures r.Failure? <==> !(200 <= status <= 299)
    ensures r.Failure? ==> r.error == HttpError(status)
    ensures r.Success? ==> r.value == DistinctValues(features, FieldName(api, field))
  {
    match Receive(status, features)
    case Failure(e) => Failure(e)
    case Success(fs) => Success(DistinctValues(fs, FieldName(api, field)))
  }
}
