/** Text order, sort keys and sorted listings: what `sorted` gives, independent of how a set is walked. */
module Ordering {
  /** Code-point order of texts. */
  predicate TextLe(a: string, b: string) {
    a == [] || (b != [] && (a[0] < b[0] || (a[0] == b[0] && TextLe(a[1..], b[1..]))))
  }

  predicate TextLess(a: string, b: string) { TextLe(a, b) && a != b }

  lemma {:induction false} TextTotal(a: string, b: string)
    ensures TextLe(a, b) || TextLe(b, a)
  {
    if a != [] && b != [] { TextTotal(a[1..], b[1..]); }
  }

  lemma {:induction false} TextAntisymmetric(a: string, b: string)
    requires TextLe(a, b) && TextLe(b, a)
    ensures a == b
  {
    if a != [] && b != [] {
      TextAntisymmetric(a[1..], b[1..]);
      assert a == [a[0]] + a[1..] && b == [b[0]] + b[1..];
    }
  }

  lemma {:induction false} TextTransitive(a: string, b: string, c: string)
    requires TextLe(a, b) && TextLe(b, c)
    ensures TextLe(a, c)
  {
    if a != [] && a[0] == b[0] && b[0] == c[0] { TextTransitive(a[1..], b[1..], c[1..]); }
  }

  /** A sort key: two numbers, then the text itself, so that distinct texts never tie. */
  datatype Key = Key(first: int, second: int, text: string) {
    predicate Le(other: Key) {
      first < other.first
      || (first == other.first
          && (second < other.second || (second == other.second && TextLe(text, other.text))))
    }
  }

  lemma KeyTotal(a: Key, b: Key)
    ensures a.Le(b) || b.Le(a)
  {
    TextTotal(a.text, b.text);
  }

  lemma KeyAntisymmetric(a: Key, b: Key)
    requires a.Le(b) && b.Le(a)
    ensures a == b
  {
    if a.first == b.first && a.second == b.second { TextAntisymmetric(a.text, b.text); }
  }

  lemma KeyTransitive(a: Key, b: Key, c: Key)
    requires a.Le(b) && b.Le(c)
    ensures a.Le(c)
  {
    if a.first == b.first == c.first && a.second == b.second == c.second { TextTransitive(a.text, b.text, c.text); }
  }

  /** Each text's key ends in the text. */
  ghost predicate Keyed(key: string -> Key) {
    forall t :: key(t).text == t
  }

  ghost predicate Sorted(key: string -> Key, texts: seq<string>) {
    forall i, j :: 0 <= i < j < |texts| ==> key(texts[i]).Le(key(texts[j]))
  }

  /** Inserts after everything not larger. */
  function Insert(key: string -> Key, texts: seq<string>, t: string): (r: seq<string>)
    ensures multiset(r) == multiset(texts) + multiset{t}
  {
    if texts == [] || key(texts[|texts| - 1]).Le(key(t)) then texts + [t]
    else
      assert texts == texts[..|texts| - 1] + [texts[|texts| - 1]];
      Insert(key, texts[..|texts| - 1], t) + [texts[|texts| - 1]]
  }

  lemma {:induction false} InsertSorted(key: string -> Key, texts: seq<string>, t: string)
    requires Sorted(key, texts)
    ensures Sorted(key, Insert(key, texts, t))
  {
    if texts != [] {
      var last := texts[|texts| - 1];
      KeyTotal(key(last), key(t));
      if !key(last).Le(key(t)) {
        var shorter := texts[..|texts| - 1];
        InsertSorted(key, shorter, t);
        forall x | x in Insert(key, shorter, t) ensures key(x).Le(key(last)) {
          assert x in multiset(Insert(key, shorter, t));
          assert x in shorter || x == t;
        }
      } else {
        forall x | x in texts ensures key(x).Le(key(t)) {
          var i :| 0 <= i < |texts| && texts[i] == x;
          if i < |texts| - 1 { KeyTransitive(key(x), key(last), key(t)); }
        }
      }
    }
  }

  /** `sorted(texts, key=key)`. */
  function Sort(key: string -> Key, texts: seq<string>): (r: seq<string>)
    ensures multiset(r) == multiset(texts)
    ensures forall t :: t in r <==> t in texts
  {
    if texts == [] then []
    else
      var front := Sort(key, texts[..|texts| - 1]);
      var r := Insert(key, front, texts[|texts| - 1]);
      assert texts == texts[..|texts| - 1] + [texts[|texts| - 1]];
      assert forall t :: t in r <==> t in multiset(r);
      assert forall t :: t in texts <==> t in multiset(texts);
      r
  }

  lemma {:induction false} SortSorts(key: string -> Key, texts: seq<string>)
    ensures Sorted(key, Sort(key, texts))
  {
    if texts != [] {
      SortSorts(key, texts[..|texts| - 1]);
      InsertSorted(key, Sort(key, texts[..|texts| - 1]), texts[|texts| - 1]);
    }
  }

  /** Sorting forgets the order it is given: with distinct keys, the same elements give the same list. */
  lemma {:induction false} SortedUnique(key: string -> Key, a: seq<string>, b: seq<string>)
    requires Keyed(key) && Sorted(key, a) && Sorted(key, b) && multiset(a) == multiset(b)
    ensures a == b
    decreases |a|
  {
    SameSize(a, b);
    if a != [] {
      var x, y := a[|a| - 1], b[|b| - 1];
      assert x in multiset(b) && y in multiset(a);
      LastIsLargest(key, a, y);
      LastIsLargest(key, b, x);
      KeyAntisymmetric(key(x), key(y));
      assert x == y;
      WithoutLast(a);
      WithoutLast(b);
      SortedUnique(key, a[..|a| - 1], b[..|b| - 1]);
    }
  }

  lemma SameSize(a: seq<string>, b: seq<string>)
    requires multiset(a) == multiset(b)
    ensures |a| == |b|
  {
    assert |multiset(a)| == |a| && |multiset(b)| == |b|;
  }

  lemma WithoutLast(a: seq<string>)
    requires a != []
    ensures a == a[..|a| - 1] + [a[|a| - 1]]
    ensures multiset(a[..|a| - 1]) == multiset(a) - multiset{a[|a| - 1]}
  {
    assert a == a[..|a| - 1] + [a[|a| - 1]];
  }

  lemma LastIsLargest(key: string -> Key, texts: seq<string>, t: string)
    requires Sorted(key, texts) && t in texts
    ensures key(t).Le(key(texts[|texts| - 1]))
  {
    var i :| 0 <= i < |texts| && texts[i] == t;
    KeyTotal(key(t), key(t));
  }
}
