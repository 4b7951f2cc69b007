/**
 * Sorter: the queue sorter Jenkins applies to buildable items. Items are
 * ordered by their task's display name, items without a task first;
 * `Collections.sort` is a stable sort, modelled as insertion that places
 * each item after the ones it ties with.
 */
module Sorter {
  import opened Base
  import opened Host

  // ---------------------------------------------------------------------
  // String.compareTo, on UTF-16 code units

  /** One char's UTF-16 code units: the char itself below U+10000, otherwise a surrogate pair. */
  function CharUnits(c: char): (u: seq<int>)
    ensures 1 <= |u| <= 2
    ensures |u| == 1 <==> c as int < 0x10000
    ensures |u| == 1 ==> u[0] == c as int && !(0xD800 <= u[0] < 0xE000)
    ensures |u| == 2 ==> 0xD800 <= u[0] < 0xDC00 <= u[1] < 0xE000
    ensures |u| == 2 ==> c as int == 0x10000 + (u[0] - 0xD800) * 0x400 + (u[1] - 0xDC00)
  {
    var v := c as int;
    if v < 0x10000 then [v]
    else [0xD800 + (v - 0x10000) / 0x400, 0xDC00 + (v - 0x10000) % 0x400]
  }

  /** A Java string's contents: the UTF-16 code units of its chars, in order. */
  function Utf16(s: string): (u: seq<int>)
    ensures |s| <= |u| <= 2 * |s|
    ensures forall k :: 0 <= k < |u| ==> 0 <= u[k] < 0x10000
  {
    if |s| == 0 then [] else CharUnits(s[0]) + Utf16(s[1..])
  }

  /** Code units decode: the leading char's units, and what follows them, are determined. */
  lemma CharUnitsPrefix(c: char, d: char, x: seq<int>, y: seq<int>)
    requires CharUnits(c) + x == CharUnits(d) + y
    ensures c == d && x == y
  {
    var u, w := CharUnits(c), CharUnits(d);
    assert (u + x)[0] == u[0] && (w + y)[0] == w[0];
    if |u| == 2 {
      assert (u + x)[1] == u[1] && (w + y)[1] == w[1];
    }
    assert |u| == |w|;
    assert x == (u + x)[|u|..] && y == (w + y)[|w|..];
  }

  /** Distinct strings have distinct code units. */
  lemma {:induction false} Utf16Injective(a: string, b: string)
    ensures Utf16(a) == Utf16(b) <==> a == b
    decreases |a|
  {
    if Utf16(a) == Utf16(b) && |a| > 0 {
      assert |b| > 0;
      CharUnitsPrefix(a[0], b[0], Utf16(a[1..]), Utf16(b[1..]));
      Utf16Injective(a[1..], b[1..]);
      assert a == [a[0]] + a[1..] && b == [b[0]] + b[1..];
    }
  }

  /** Below U+10000 each char is one code unit, its own value. */
  lemma {:induction false} Utf16Bmp(s: string)
    requires forall k :: 0 <= k < |s| ==> s[k] as int < 0x10000
    ensures |Utf16(s)| == |s|
    ensures forall k :: 0 <= k < |s| ==> Utf16(s)[k] == s[k] as int
  {
    if |s| > 0 {
      Utf16Bmp(s[1..]);
      forall k | 0 <= k < |s|
        ensures Utf16(s)[k] == s[k] as int
      {
        if k > 0 {
          assert Utf16(s)[k] == Utf16(s[1..])[k - 1];
        }
      }
    }
  }

  /** The difference of the first differing units, else of the lengths. */
  function UnitCompare(a: seq<int>, b: seq<int>): int
    decreases |a|
  {
    if |a| == 0 || |b| == 0 then |a| - |b|
    else if a[0] != b[0] then a[0] - b[0]
    else UnitCompare(a[1..], b[1..])
  }

  lemma {:induction false} UnitCompareAntisymmetric(a: seq<int>, b: seq<int>)
    ensures UnitCompare(a, b) == -UnitCompare(b, a)
    decreases |a|
  {
    if |a| > 0 && |b| > 0 && a[0] == b[0] {
      UnitCompareAntisymmetric(a[1..], b[1..]);
    }
  }

  lemma {:induction false} UnitCompareZero(a: seq<int>, b: seq<int>)
    ensures UnitCompare(a, b) == 0 <==> a == b
    decreases |a|
  {
    if |a| > 0 && |b| > 0 && a[0] == b[0] {
      UnitCompareZero(a[1..], b[1..]);
      assert a == [a[0]] + a[1..] && b == [b[0]] + b[1..];
    }
  }

  lemma {:induction false} UnitCompareTransitive(a: seq<int>, b: seq<int>, c: seq<int>)
    requires UnitCompare(a, b) <= 0 && UnitCompare(b, c) <= 0
    ensures UnitCompare(a, c) <= 0
    decreases |a|
  {
    if |a| > 0 && |b| > 0 && |c| > 0 && a[0] == b[0] && b[0] == c[0] {
      UnitCompareTransitive(a[1..], b[1..], c[1..]);
    }
  }

  /** `String.compareTo`: lexicographic on the UTF-16 code units. */
  function StrCompare(a: string, b: string): (r: int)
    ensures r == 0 <==> a == b
  {
    var r := UnitCompare(Utf16(a), Utf16(b));
    UnitCompareZero(Utf16(a), Utf16(b));
    Utf16Injective(a, b);
    r
  }

  lemma StrCompareAntisymmetric(a: string, b: string)
    ensures StrCompare(a, b) == -StrCompare(b, a)
  {
    UnitCompareAntisymmetric(Utf16(a), Utf16(b));
  }

  lemma StrCompareTransitive(a: string, b: string, c: string)
    requires StrCompare(a, b) <= 0 && StrCompare(b, c) <= 0
    ensures StrCompare(a, c) <= 0
  {
    UnitCompareTransitive(Utf16(a), Utf16(b), Utf16(c));
  }

  /**
   * The order is not that of code points: U+1F600 is stored from the high
   * surrogate 0xD83D, so it sorts before the private-use U+E000.
   */
  lemma AstralSortsBeforePrivateUse()
    ensures StrCompare("\U{1F600}", "\U{E000}") < 0
    ensures "\U{1F600}"[0] as int > "\U{E000}"[0] as int
  {
    assert Utf16("\U{1F600}") == [0xD83D, 0xDE00];
    assert Utf16("\U{E000}") == [0xE000];
  }

  // ---------------------------------------------------------------------
  // The comparator

  /** The comparator's `lhs.task == rhs.task`: both null, or the same task object. */
  predicate SameTask(a: Item, b: Item) {
    (a.task.None? && b.task.None?) || (a.task.Some? && b.task.Some? && a.task.value.ref == b.task.value.ref)
  }

  /** The comparator: same task ties; a null task sorts first; otherwise by display name. */
  function Compare(lhs: Item, rhs: Item): (r: int)
    ensures r == 0 <==> SameTask(lhs, rhs) || (lhs.task.Some? && rhs.task.Some? && lhs.task.value.displayName == rhs.task.value.displayName)
    ensures lhs.task.None? && rhs.task.Some? ==> r < 0
  {
    if SameTask(lhs, rhs) then 0
    else if lhs.task.None? then -1
    else if rhs.task.None? then 1
    else StrCompare(lhs.task.value.displayName, rhs.task.value.displayName)
  }

  /** What an item is sorted by: its task's display name, None without a task. */
  function Key(item: Item): Option<string> {
    if item.task.None? then None else Some(item.task.value.displayName)
  }

  /** The order on keys: None first, names by `compareTo`. */
  function KeyCompare(a: Item, b: Item): int {
    match (Key(a), Key(b))
    case (None, None) => 0
    case (None, Some(_)) => -1
    case (Some(_), None) => 1
    case (Some(x), Some(y)) => StrCompare(x, y)
  }

  /** One task object has one display name. */
  predicate Coherent(a: Item, b: Item) {
    a.task.Some? && b.task.Some? && a.task.value.ref == b.task.value.ref ==> a.task.value.displayName == b.task.value.displayName
  }

  predicate CoherentAll(items: seq<Item>) {
    forall a, b :: a in items && b in items ==> Coherent(a, b)
  }

  /** For one task object per display name, the comparator is exactly the order on keys. */
  lemma CompareIsKeyOrder(a: Item, b: Item)
    requires Coherent(a, b)
    ensures Compare(a, b) == KeyCompare(a, b)
  {
  }

  /** The comparator is antisymmetric, as `Comparator` requires. */
  lemma CompareAntisymmetric(a: Item, b: Item)
    ensures Compare(a, b) == -Compare(b, a)
  {
    if a.task.Some? && b.task.Some? {
      StrCompareAntisymmetric(a.task.value.displayName, b.task.value.displayName);
    }
  }

  predicate KeyLe(a: Item, b: Item) {
    KeyCompare(a, b) <= 0
  }

  lemma KeyLeTotal(a: Item, b: Item)
    ensures KeyLe(a, b) || KeyLe(b, a)
  {
    if Key(a).Some? && Key(b).Some? {
      StrCompareAntisymmetric(Key(a).value, Key(b).value);
    }
  }

  lemma KeyLeTransitive(a: Item, b: Item, c: Item)
    requires KeyLe(a, b) && KeyLe(b, c)
    ensures KeyLe(a, c)
  {
    if Key(a).Some? && Key(b).Some? && Key(c).Some? {
      StrCompareTransitive(Key(a).value, Key(b).value, Key(c).value);
    }
  }

  // ---------------------------------------------------------------------
  // Sorting

  predicate Sorted(s: seq<Item>) {
    forall i, j :: 0 <= i < j < |s| ==> KeyLe(s[i], s[j])
  }

  /** A head that sorts no later than every element of a sorted tail extends it. */
  lemma SortedCons(h: Item, t: seq<Item>)
    requires Sorted(t)
    requires forall y :: y in t ==> KeyLe(h, y)
    ensures Sorted([h] + t)
  {
    var s := [h] + t;
    forall i, j | 0 <= i < j < |s|
      ensures KeyLe(s[i], s[j])
    {
      if i == 0 {
        assert s[j] == t[j - 1];
      } else {
        assert s[i] == t[i - 1] && s[j] == t[j - 1];
      }
    }
  }

  /** Insert `x` after every element that does not sort after it. */
  function Insert(x: Item, s: seq<Item>): (r: seq<Item>)
    requires Sorted(s)
    ensures Sorted(r)
    ensures multiset(r) == multiset(s) + multiset{x}
    decreases |s|
  {
    if |s| == 0 then [x]
    else if KeyLe(s[0], x) then
      var rest := Insert(x, s[1..]);
      InsertFront(x, s, rest);
      [s[0]] + rest
    else
      InsertBefore(x, s);
      [x] + s
  }

  /** The first case of `Insert`: the head stays in front of the rest with `x` inserted. */
  lemma InsertFront(x: Item, s: seq<Item>, rest: seq<Item>)
    requires |s| > 0 && Sorted(s) && KeyLe(s[0], x)
    requires Sorted(rest) && multiset(rest) == multiset(s[1..]) + multiset{x}
    ensures Sorted([s[0]] + rest)
    ensures multiset([s[0]] + rest) == multiset(s) + multiset{x}
  {
    assert s == [s[0]] + s[1..];
    forall y | y in rest
      ensures KeyLe(s[0], y)
    {
      assert y in multiset(rest);
      if y != x {
        assert y in multiset(s[1..]);
        var k :| 0 <= k < |s[1..]| && s[1..][k] == y;
        assert s[k + 1] == y;
      }
    }
    SortedCons(s[0], rest);
  }

  /** The second case of `Insert`: `x` sorts before the head, hence before all of `s`. */
  lemma InsertBefore(x: Item, s: seq<Item>)
    requires |s| > 0 && Sorted(s) && !KeyLe(s[0], x)
    ensures Sorted([x] + s)
  {
    KeyLeTotal(x, s[0]);
    forall y | y in s
      ensures KeyLe(x, y)
    {
      var k :| 0 <= k < |s| && s[k] == y;
      if k > 0 {
        KeyLeTransitive(x, s[0], s[k]);
      }
    }
    SortedCons(x, s);
  }

  /** Insertion sort, items taken in queue order. */
  function SortItems(s: seq<Item>): (r: seq<Item>)
    ensures Sorted(r)
    ensures multiset(r) == multiset(s)
    decreases |s|
  {
    if |s| == 0 then []
    else
      assert s == s[..|s| - 1] + [s[|s| - 1]];
      Insert(s[|s| - 1], SortItems(s[..|s| - 1]))
  }

  /**
   * `sortBuildableItems`: a permutation of the items in which, for items
   * whose task objects each have one display name, no item compares
   * greater than one after it.
   */
  function SortBuildableItems(items: seq<Item>): (r: seq<Item>)
    requires CoherentAll(items)
    ensures multiset(r) == multiset(items)
    ensures forall i, j :: 0 <= i < j < |r| ==> Compare(r[i], r[j]) <= 0
  {
    var r := SortItems(items);
    forall i, j | 0 <= i < j < |r|
      ensures Compare(r[i], r[j]) <= 0
    {
      assert r[i] in multiset(items) && r[j] in multiset(items);
      CompareIsKeyOrder(r[i], r[j]);
    }
    r
  }

  /** Items without a task come before every item with one. */
  lemma TasklessFirst(items: seq<Item>, i: int, j: int)
    requires CoherentAll(items)
    requires 0 <= i < |SortBuildableItems(items)| && 0 <= j < |SortBuildableItems(items)|
    requires SortBuildableItems(items)[i].task.None? && SortBuildableItems(items)[j].task.Some?
    ensures i < j
  {
  }
}
