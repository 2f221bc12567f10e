/**
  Stable sorting by a key, as Python's `sorted(xs, key=...)` does it.  Every
  sort in the modelled files compares a tuple of numbers followed by one text,
  so one key type serves all of them.
*/
module Ordering {

  /** A sort key: three numbers, then a text, compared lexicographically. */
  datatype Key = Key(first: int, second: int, third: int, text: string)

  /** Python's order on strings. */
  predicate TextLe(s: string, t: string) {
    s == [] || (t != [] && (s[0] < t[0] || (s[0] == t[0] && TextLe(s[1..], t[1..]))))
  }

  predicate KeyLe(k: Key, l: Key) {
    k.first < l.first || (k.first == l.first &&
    (k.second < l.second || (k.second == l.second &&
    (k.third < l.third || (k.third == l.third && TextLe(k.text, l.text))))))
  }

  lemma {:induction false} TextOrder(s: string, t: string, u: string)
    ensures TextLe(s, t) || TextLe(t, s)
    ensures TextLe(s, t) && TextLe(t, s) ==> s == t
    ensures TextLe(s, t) && TextLe(t, u) ==> TextLe(s, u)
  {
    if s != [] && t != [] {
      var u' := if u == [] then [] else u[1..];
      TextOrder(s[1..], t[1..], u');
      assert s == [s[0]] + s[1..] && t == [t[0]] + t[1..];
    }
  }

  lemma HeadsAgree(s: string, t: string, k: nat)
    requires k <= |s| && k <= |t| && s[..k] == t[..k]
    ensures k > 0 ==> s[0] == t[0]
  {
    if k > 0 {
      assert s[..k][0] == s[0] && t[..k][0] == t[0];
    }
  }

  /** One text is before another when it is a prefix of it, or smaller where they first differ. */
  lemma {:induction false} TextOrderMeans(s: string, t: string)
    ensures TextLe(s, t) <==> s <= t || exists k :: 0 <= k < |s| && k < |t| && s[..k] == t[..k] && s[k] < t[k]
  {
    if s != [] && t != [] {
      var a, b := s[1..], t[1..];
      TextOrderMeans(a, b);
      assert s == [s[0]] + a && t == [t[0]] + b;
      if s[0] == t[0] {
        if k :| 0 <= k < |a| && k < |b| && a[..k] == b[..k] && a[k] < b[k] {
          assert s[..k + 1] == [s[0]] + a[..k] && t[..k + 1] == [t[0]] + b[..k];
          assert s[k + 1] == a[k] && t[k + 1] == b[k];
        }
        if k :| 0 <= k < |s| && k < |t| && s[..k] == t[..k] && s[k] < t[k] {
          assert k > 0;
          assert a[..k - 1] == s[..k][1..] && b[..k - 1] == t[..k][1..];
        }
        assert s <= t <==> a <= b;
      } else if s[0] < t[0] {
        assert s[..0] == t[..0];
      } else {
        forall k | 0 <= k < |s| && k < |t| && s[..k] == t[..k] ensures k == 0 {
          HeadsAgree(s, t, k);
        }
      }
    }
  }

  lemma KeyOrder(k: Key, l: Key, m: Key)
    ensures KeyLe(k, l) || KeyLe(l, k)
    ensures KeyLe(k, l) && KeyLe(l, k) ==> k == l
    ensures KeyLe(k, l) && KeyLe(l, m) ==> KeyLe(k, m)
  {
    TextOrder(k.text, l.text, m.text);
  }

  ghost predicate SortedBy<T>(s: seq<T>, key: T -> Key) {
    forall i, j :: 0 <= i < j < |s| ==> KeyLe(key(s[i]), key(s[j]))
  }

  /** Inserts `x` after every element whose key is not greater: a stable insertion. */
  function Insert<T>(s: seq<T>, x: T, key: T -> Key): (r: seq<T>)
    ensures |r| == |s| + 1
  {
    if s == [] || KeyLe(key(s[|s|-1]), key(x)) then s + [x]
    else Insert(s[..|s|-1], x, key) + [s[|s|-1]]
  }

  function SortBy<T>(s: seq<T>, key: T -> Key): (r: seq<T>)
    ensures |r| == |s|
  {
    if s == [] then [] else Insert(SortBy(s[..|s|-1], key), s[|s|-1], key)
  }

  /** The insertion point: everything before it is not greater, everything from it on is greater. */
  lemma {:induction false} InsertSplits<T>(s: seq<T>, x: T, key: T -> Key) returns (i: nat)
    requires SortedBy(s, key)
    ensures i <= |s| && Insert(s, x, key) == s[..i] + [x] + s[i..]
    ensures forall k :: 0 <= k < i ==> KeyLe(key(s[k]), key(x))
    ensures forall k :: i <= k < |s| ==> !KeyLe(key(s[k]), key(x))
  {
    if s == [] || KeyLe(key(s[|s|-1]), key(x)) {
      i := |s|;
      forall k | 0 <= k < |s| ensures KeyLe(key(s[k]), key(x)) {
        if k < |s| - 1 { KeyOrder(key(s[k]), key(s[|s|-1]), key(x)); }
      }
    } else {
      var front := s[..|s|-1];
      i := InsertSplits(front, x, key);
      assert s == front + [s[|s|-1]];
      assert Insert(s, x, key) == s[..i] + [x] + s[i..];
    }
  }

  lemma InsertSorted<T>(s: seq<T>, x: T, key: T -> Key)
    requires SortedBy(s, key)
    ensures SortedBy(Insert(s, x, key), key)
  {
    hide KeyLe;
    var i := InsertSplits(s, x, key);
    forall k | i <= k < |s| ensures KeyLe(key(x), key(s[k])) {
      KeyOrder(key(x), key(s[k]), key(x));
    }
    var r := Insert(s, x, key);
    assert forall k :: 0 <= k < |r| ==> r[k] == if k < i then s[k] else if k == i then x else s[k - 1];
  }

  lemma InsertPermutes<T>(s: seq<T>, x: T, key: T -> Key)
    requires SortedBy(s, key)
    ensures multiset(Insert(s, x, key)) == multiset(s) + multiset{x}
  {
    hide KeyLe;
    var i := InsertSplits(s, x, key);
    assert s == s[..i] + s[i..];
  }

  /** `sorted` returns its input, rearranged in key order. */
  lemma {:induction false} SortByCorrect<T>(s: seq<T>, key: T -> Key)
    ensures SortedBy(SortBy(s, key), key)
    ensures multiset(SortBy(s, key)) == multiset(s)
  {
    if s != [] {
      SortByCorrect(s[..|s|-1], key);
      InsertSorted(SortBy(s[..|s|-1], key), s[|s|-1], key);
      InsertPermutes(SortBy(s[..|s|-1], key), s[|s|-1], key);
      assert s == s[..|s|-1] + [s[|s|-1]];
    }
  }

  /** Elements of a sorted permutation are elements of the input, and conversely. */
  lemma SortByMembers<T>(s: seq<T>, key: T -> Key)
    ensures forall x :: x in SortBy(s, key) <==> x in s
  {
    SortByCorrect(s, key);
    assert forall x :: x in s <==> x in multiset(s);
    assert forall x :: x in SortBy(s, key) <==> x in multiset(SortBy(s, key));
  }

  /** Equal keys mean equal elements. */
  ghost predicate KeyIdentifies<T>(s: seq<T>, key: T -> Key) {
    forall x, y :: x in s && y in s && key(x) == key(y) ==> x == y
  }

  lemma SortedLastIsGreatest<T>(s: seq<T>, x: T, key: T -> Key)
    requires SortedBy(s, key) && x in s
    ensures KeyLe(key(x), key(s[|s|-1]))
  {
    KeyOrder(key(x), key(x), key(x));
  }

  lemma SameMembers<T>(s: seq<T>, t: seq<T>)
    requires multiset(s) == multiset(t)
    ensures |s| == |t|
    ensures forall x :: x in s <==> x in t
  {
    assert |s| == |multiset(s)| && |t| == |multiset(t)|;
    forall x ensures x in s <==> x in t {
      assert x in s <==> x in multiset(s);
      assert x in t <==> x in multiset(t);
    }
  }

  lemma SortedLastsAgree<T>(s: seq<T>, t: seq<T>, key: T -> Key)
    requires SortedBy(s, key) && SortedBy(t, key) && KeyIdentifies(s, key)
    requires multiset(s) == multiset(t) && s != []
    ensures |s| == |t| && s[|s|-1] == t[|t|-1]
  {
    SameMembers(s, t);
    var a, b := s[|s|-1], t[|t|-1];
    assert b in t && a in s;
    SortedLastIsGreatest(s, b, key);
    SortedLastIsGreatest(t, a, key);
    KeyOrder(key(a), key(b), key(a));
  }

  lemma DropLast<T>(s: seq<T>)
    requires s != []
    ensures multiset(s[..|s|-1]) == multiset(s) - multiset{s[|s|-1]}
  {
    assert s == s[..|s|-1] + [s[|s|-1]];
  }

  /** When keys identify elements there is only one sorted arrangement. */
  lemma {:induction false} SortedArrangementUnique<T>(s: seq<T>, t: seq<T>, key: T -> Key)
    requires SortedBy(s, key) && SortedBy(t, key) && KeyIdentifies(s, key)
    requires multiset(s) == multiset(t)
    ensures s == t
    decreases |s|
  {
    if s == [] {
      assert |t| == |multiset(t)| == 0;
    } else {
      SortedLastsAgree(s, t, key);
      DropLast(s);
      DropLast(t);
      var front := s[..|s|-1];
      assert KeyIdentifies(front, key) by {
        assert forall x :: x in front ==> x in s;
      }
      SortedArrangementUnique(front, t[..|t|-1], key);
      assert s == front + [s[|s|-1]] && t == t[..|t|-1] + [t[|t|-1]];
    }
  }

  lemma KeyIdentifiesPermuted<T>(s: seq<T>, t: seq<T>, key: T -> Key)
    requires KeyIdentifies(s, key) && multiset(s) == multiset(t)
    ensures KeyIdentifies(t, key)
  {
    SameMembers(s, t);
  }

  /** Sorting forgets the order of its input when keys identify elements. */
  lemma SortByPermutation<T>(s: seq<T>, t: seq<T>, key: T -> Key)
    requires KeyIdentifies(s, key) && multiset(s) == multiset(t)
    ensures SortBy(s, key) == SortBy(t, key)
  {
    SortByCorrect(s, key);
    SortByCorrect(t, key);
    KeyIdentifiesPermuted(s, SortBy(s, key), key);
    SortedArrangementUnique(SortBy(s, key), SortBy(t, key), key);
  }

  /** An element that sorts last is simply appended. */
  lemma SortByLast<T>(s: seq<T>, x: T, key: T -> Key)
    requires forall y :: y in s ==> KeyLe(key(y), key(x))
    ensures SortBy(s + [x], key) == SortBy(s, key) + [x]
  {
    SortByMembers(s, key);
    var r := SortBy(s, key);
    if r != [] {
      assert r[|r|-1] in r;
    }
    var sx := s + [x];
    assert sx[..|sx|-1] == s && sx[|sx|-1] == x;
    assert SortBy(sx, key) == Insert(r, x, key);
  }
}
