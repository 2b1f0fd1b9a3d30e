/**
 * String helpers the validator relies on: decimal rendering of indices
 * (Go's %d), decimal parsing, the first occurrence of a separator
 * (strings.Split / strings.Contains), joining, and the byte-wise string
 * order that Go's sort.Strings uses, with which map keys are visited in a
 * deterministic order.
 */
module Text {
  import opened Wrappers

  predicate IsDigit(c: char) {
    '0' <= c <= '9'
  }

  predicate IsDecimal(s: string) {
    forall i :: 0 <= i < |s| ==> IsDigit(s[i])
  }

  function DigitChar(d: nat): (c: char)
    requires d < 10
    ensures IsDigit(c)
  {
    ('0' as int + d) as char
  }

  function DigitValue(c: char): (d: nat)
    requires IsDigit(c)
    ensures d < 10 && DigitChar(d) == c
  {
    c as int - '0' as int
  }

  /** Decimal rendering of a natural number, most significant digit first. */
  function NatToString(n: nat): (s: string)
    ensures |s| > 0 && IsDecimal(s)
    decreases n
  {
    if n < 10 then [DigitChar(n)] else NatToString(n / 10) + [DigitChar(n % 10)]
  }

  /** The number a string of decimal digits denotes. */
  function DecimalValue(s: string): nat
    requires IsDecimal(s)
    decreases |s|
  {
    if s == [] then 0 else DecimalValue(s[..|s| - 1]) * 10 + DigitValue(s[|s| - 1])
  }

  /** Reading back a rendered number gives the number. */
  lemma {:induction false} DecimalValueOfNatToString(n: nat)
    ensures DecimalValue(NatToString(n)) == n
    decreases n
  {
    var s := NatToString(n);
    if n >= 10 {
      DecimalValueOfNatToString(n / 10);
      assert s[..|s| - 1] == NatToString(n / 10);
    }
  }

  /** Distinct numbers render differently. */
  lemma NatToStringInjective(m: nat, n: nat)
    requires NatToString(m) == NatToString(n)
    ensures m == n
  {
    DecimalValueOfNatToString(m);
    DecimalValueOfNatToString(n);
  }

  /** The position of the first `c` in `s`, if any. */
  function IndexOf(s: string, c: char): (r: Option<nat>)
    ensures r.None? <==> c !in s
    ensures r.Some? ==> r.value < |s| && s[r.value] == c && c !in s[..r.value]
  {
    if s == [] then None
    else if s[0] == c then Some(0)
    else match IndexOf(s[1..], c)
      case None => None
      case Some(k) => assert s[..k + 1] == [s[0]] + s[1..][..k]; Some(k + 1)
  }

  /** Go's strings.Join. */
  function Join(parts: seq<string>, sep: string): string {
    if parts == [] then ""
    else if |parts| == 1 then parts[0]
    else Join(parts[..|parts| - 1], sep) + sep + parts[|parts| - 1]
  }

  /** `a` sorts no later than `b`: lexicographic order on characters. */
  predicate Below(a: string, b: string)
    decreases |a|
  {
    |a| == 0 || (|b| != 0 && (a[0] < b[0] || (a[0] == b[0] && Below(a[1..], b[1..]))))
  }

  lemma {:induction false} BelowTotal(a: string, b: string)
    ensures Below(a, b) || Below(b, a)
    decreases |a|
  {
    if |a| != 0 && |b| != 0 && a[0] == b[0] {
      BelowTotal(a[1..], b[1..]);
    }
  }

  lemma {:induction false} BelowAntisymmetric(a: string, b: string)
    requires Below(a, b) && Below(b, a)
    ensures a == b
    decreases |a|
  {
    if |a| != 0 {
      BelowAntisymmetric(a[1..], b[1..]);
      assert a == [a[0]] + a[1..] && b == [b[0]] + b[1..];
    }
  }

  lemma {:induction false} BelowTransitive(a: string, b: string, c: string)
    requires Below(a, b) && Below(b, c)
    ensures Below(a, c)
    decreases |a|
  {
    if |a| != 0 && a[0] == b[0] && b[0] == c[0] {
      BelowTransitive(a[1..], b[1..], c[1..]);
    }
  }

  predicate IsLeast(m: string, s: set<string>) {
    m in s && forall y :: y in s ==> Below(m, y)
  }

  /** Every non-empty finite set of strings has a least element. */
  lemma {:induction false} LeastExists(s: set<string>)
    requires s != {}
    ensures exists m :: IsLeast(m, s)
    decreases |s|
  {
    var x :| x in s;
    BelowTotal(x, x);
    if s == {x} {
      assert IsLeast(x, s);
    } else {
      LeastExists(s - {x});
      var m :| IsLeast(m, s - {x});
      BelowTotal(m, x);
      if Below(m, x) {
        assert IsLeast(m, s);
      } else {
        forall y | y in s
          ensures Below(x, y)
        {
          if y != x {
            BelowTransitive(x, m, y);
          }
        }
        assert IsLeast(x, s);
      }
    }
  }

  lemma LeastUnique(s: set<string>)
    ensures forall a, b :: IsLeast(a, s) && IsLeast(b, s) ==> a == b
  {
    forall a, b | IsLeast(a, s) && IsLeast(b, s)
      ensures a == b
    {
      BelowAntisymmetric(a, b);
    }
  }

  /** The elements of `s` in ascending order, each once (sort.Strings over a key set). */
  function SortedElements(s: set<string>): (r: seq<string>)
    ensures |r| == |s|
    ensures forall x :: x in r <==> x in s
    ensures forall i, j :: 0 <= i < j < |r| ==> r[i] != r[j]
    decreases |s|
  {
    if s == {} then []
    else
      LeastExists(s);
      LeastUnique(s);
      var m :| IsLeast(m, s);
      [m] + SortedElements(s - {m})
  }

  /** The elements come out in ascending order. */
  lemma {:induction false} SortedElementsAscending(s: set<string>)
    ensures var r := SortedElements(s); forall i, j :: 0 <= i < j < |r| ==> Below(r[i], r[j])
    decreases |s|
  {
    if s != {} {
      LeastExists(s);
      var m :| IsLeast(m, s);
      SortedElementsFirst(s, m);
      var rest := SortedElements(s - {m});
      var r := SortedElements(s);
      SortedElementsAscending(s - {m});
      forall i, j | 0 <= i < j < |r|
        ensures Below(r[i], r[j])
      {
        LeastBelowRest(m, s, rest, i, j);
      }
    }
  }

  /** The least element comes first. */
  lemma SortedElementsFirst(s: set<string>, m: string)
    requires IsLeast(m, s)
    ensures SortedElements(s) == [m] + SortedElements(s - {m})
  {
    LeastUnique(s);
  }

  lemma LeastBelowRest(m: string, s: set<string>, rest: seq<string>, i: nat, j: nat)
    requires IsLeast(m, s)
    requires forall x :: x in rest ==> x in s
    requires forall i, j :: 0 <= i < j < |rest| ==> Below(rest[i], rest[j])
    requires i < j < |rest| + 1
    ensures Below(([m] + rest)[i], ([m] + rest)[j])
  {
    var r := [m] + rest;
    assert r[j] == rest[j - 1];
    if i == 0 {
      assert rest[j - 1] in rest;
    } else {
      assert r[i] == rest[i - 1];
    }
  }

  /** The keys of a Go map in the order the validator visits them. */
  function SortedKeys<V>(m: map<string, V>): (r: seq<string>)
    ensures forall x :: x in r <==> x in m
    ensures forall i, j :: 0 <= i < j < |r| ==> r[i] != r[j]
  {
    SortedElements(m.Keys)
  }

  /** The entries of `m` under `keys`, in the order of `keys`. */
  function ItemsOf<V>(m: map<string, V>, keys: seq<string>): (r: seq<(string, V)>)
    requires forall k :: k in keys ==> k in m
    ensures |r| == |keys|
  {
    if keys == [] then [] else [(keys[0], m[keys[0]])] + ItemsOf(m, keys[1..])
  }

  lemma {:induction false} ItemsOfAt<V>(m: map<string, V>, keys: seq<string>, i: nat)
    requires forall k :: k in keys ==> k in m
    requires i < |keys|
    ensures ItemsOf(m, keys)[i] == (keys[i], m[keys[i]])
    decreases i
  {
    if i > 0 {
      ItemsOfAt(m, keys[1..], i - 1);
    }
  }

  /** The entries of a Go map, visited in key order. */
  function SortedItems<V>(m: map<string, V>): seq<(string, V)> {
    ItemsOf(m, SortedKeys(m))
  }

  /** Every entry of the map is visited. */
  lemma SortedItemsCover<V>(m: map<string, V>, k: string)
    requires k in m
    ensures exists i :: 0 <= i < |SortedItems(m)| && SortedItems(m)[i] == (k, m[k])
  {
    var keys := SortedKeys(m);
    var i :| 0 <= i < |keys| && keys[i] == k;
    ItemsOfAt(m, keys, i);
    assert SortedItems(m)[i] == (k, m[k]);
  }

  /** Every visited entry is an entry of the map. */
  lemma SortedItemsAt<V>(m: map<string, V>, i: nat)
    requires i < |SortedItems(m)|
    ensures SortedItems(m)[i].0 in m
    ensures SortedItems(m)[i] == (SortedItems(m)[i].0, m[SortedItems(m)[i].0])
  {
    ItemsOfAt(m, SortedKeys(m), i);
  }

  /** No key is visited twice. */
  lemma SortedItemsDistinct<V>(m: map<string, V>, i: nat, j: nat)
    requires i < j < |SortedItems(m)|
    ensures SortedItems(m)[i].0 != SortedItems(m)[j].0
  {
    var keys := SortedKeys(m);
    ItemsOfAt(m, keys, i);
    ItemsOfAt(m, keys, j);
    assert keys[i] != keys[j];
  }
}
