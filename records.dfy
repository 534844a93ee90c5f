/** A product's monthly history record as the API returns it and the
    dashboard reads it, and the stable sort the dashboard applies to it
    (`[...history].sort(compare)`). */
module Records {
  import opened Wrappers

  /** One history record. `date` is the record's day as a number (the
      dashboard only ever compares dates); every quantity may be missing. */
  datatype Record = Record(
    date: int,
    openingStock: Option<int>,
    inboundQuantity: Option<int>,
    soldQuantity: Option<int>,
    closingStock: Option<int>)

  /** `value || 0` on a numeric field. */
  function OrZero(v: Option<int>): (r: int)
    ensures v.None? ==> r == 0
    ensures v.Some? ==> r == v.value
  {
    v.GetOr(0)
  }

  /** JavaScript truthiness of a numeric field: present and non-zero. */
  predicate Truthy(v: Option<int>) {
    v.Some? && v.value != 0
  }

  ghost predicate SortedBy<T>(s: seq<T>, key: T -> int) {
    forall i, j :: 0 <= i < j < |s| ==> key(s[i]) <= key(s[j])
  }

  /** Inserts `x` before the first element whose key is not smaller, so
      that among equal keys the inserted element comes first. */
  function Insert<T>(x: T, s: seq<T>, key: T -> int): (r: seq<T>)
    requires SortedBy(s, key)
    ensures SortedBy(r, key)
    ensures multiset(r) == multiset(s) + multiset{x}
    ensures forall y :: y in r ==> y == x || y in s
  {
    if s == [] then [x]
    else if key(x) <= key(s[0]) then
      LowerBoundOfSorted(s, key);
      ConsSorted(x, s, key);
      [x] + s
    else
      var rest := Insert(x, s[1..], key);
      assert s == [s[0]] + s[1..];
      LowerBoundOfSorted(s, key);
      ConsSorted(s[0], rest, key);
      [s[0]] + rest
  }

  lemma LowerBoundOfSorted<T>(s: seq<T>, key: T -> int)
    requires s != [] && SortedBy(s, key)
    ensures forall y :: y in s ==> key(s[0]) <= key(y)
  {
  }

  /** A head no larger than every element of a sorted tail keeps it sorted. */
  lemma ConsSorted<T>(h: T, t: seq<T>, key: T -> int)
    requires SortedBy(t, key) && forall y :: y in t ==> key(h) <= key(y)
    ensures SortedBy([h] + t, key)
  {
    var r := [h] + t;
    forall i, j | 0 <= i < j < |r|
      ensures key(r[i]) <= key(r[j])
    {
      assert r[j] == t[j - 1];
      if i > 0 {
        assert r[i] == t[i - 1];
      }
    }
  }

  /** A stable ascending sort by `key` (insertion sort). JavaScript's
      `Array.prototype.sort` is stable, and sorting with the comparator
      `(a, b) => key(a) - key(b)` orders exactly as this function does. */
  function SortByKey<T>(s: seq<T>, key: T -> int): (r: seq<T>)
    ensures SortedBy(r, key)
    ensures multiset(r) == multiset(s)
    ensures |r| == |s|
  {
    if s == [] then []
    else
      assert s == [s[0]] + s[1..];
      Insert(s[0], SortByKey(s[1..], key), key)
  }

  /** Oldest first: `(a, b) => new Date(a.date) - new Date(b.date)`. */
  function SortByDateAscending(h: seq<Record>): (r: seq<Record>)
    ensures |r| == |h| && multiset(r) == multiset(h)
    ensures forall i, j :: 0 <= i < j < |r| ==> r[i].date <= r[j].date
  {
    var key := (x: Record) => x.date;
    var r := SortByKey(h, key);
    assert forall i, j :: 0 <= i < j < |r| ==> key(r[i]) <= key(r[j]);
    r
  }

  /** Most recent first: `(a, b) => new Date(b.date) - new Date(a.date)`,
      the same as sorting ascending by the negated date. */
  function SortByDateDescending(h: seq<Record>): (r: seq<Record>)
    ensures |r| == |h| && multiset(r) == multiset(h)
    ensures forall i, j :: 0 <= i < j < |r| ==> r[i].date >= r[j].date
  {
    var key := (x: Record) => -x.date;
    var r := SortByKey(h, key);
    assert forall i, j :: 0 <= i < j < |r| ==> key(r[i]) <= key(r[j]);
    r
  }
}
