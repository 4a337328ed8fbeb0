/** JavaScript strings: sequences of UTF-16 code units, ordered code unit by code unit. */
module Text {

  type Unit = u: int | 0 <= u < 0x1_0000

  type Str = seq<Unit>

  const TAB: Unit := 0x09
  const LINE_FEED: Unit := 0x0A
  const CARRIAGE_RETURN: Unit := 0x0D
  const SPACE: Unit := 0x20
  const QUOTE: Unit := 0x22
  const COMMA: Unit := 0x2C
  const COLON: Unit := 0x3A
  const OPEN_BRACKET: Unit := 0x5B
  const BACKSLASH: Unit := 0x5C
  const CLOSE_BRACKET: Unit := 0x5D
  const OPEN_BRACE: Unit := 0x7B
  const CLOSE_BRACE: Unit := 0x7D

  /** The code units of a text in the basic plane. */
  function Units(s: string): Str
    requires forall i | 0 <= i < |s| :: s[i] as int < 0x1_0000
  {
    seq(|s|, i requires 0 <= i < |s| => s[i] as int)
  }

  /** The order of `left < right` on strings. */
  predicate Less(a: Str, b: Str) {
    if b == [] then false
    else if a == [] then true
    else a[0] < b[0] || (a[0] == b[0] && Less(a[1..], b[1..]))
  }

  lemma {:induction false} LessIrreflexive(a: Str)
    ensures !Less(a, a)
  {
    if a != [] { LessIrreflexive(a[1..]); }
  }

  lemma {:induction false} LessTransitive(a: Str, b: Str, c: Str)
    requires Less(a, b) && Less(b, c)
    ensures Less(a, c)
  {
    if a != [] && a[0] == b[0] && b[0] == c[0] { LessTransitive(a[1..], b[1..], c[1..]); }
  }

  lemma {:induction false} LessTotal(a: Str, b: Str)
    ensures Less(a, b) || a == b || Less(b, a)
  {
    if a != [] && b != [] && a[0] == b[0] {
      LessTotal(a[1..], b[1..]);
      assert a == [a[0]] + a[1..] && b == [b[0]] + b[1..];
    }
  }

  /** The strings agree before `i`, where the first ends or holds the smaller code unit. */
  predicate DiffersAt(a: Str, b: Str, i: nat) {
    && i <= |a| && i < |b| && a[..i] == b[..i]
    && (i < |a| ==> a[i] < b[i])
  }

  /** One string precedes another exactly if it is a proper prefix of it or smaller at the first difference. */
  lemma {:induction false} LessIsFirstDifference(a: Str, b: Str)
    ensures Less(a, b) <==> exists i: nat :: DiffersAt(a, b, i)
  {
    if b != [] && (a == [] || a[0] < b[0]) { assert DiffersAt(a, b, 0); }
    if a != [] && b != [] && a[0] == b[0] {
      LessIsFirstDifference(a[1..], b[1..]);
      assert a == [a[0]] + a[1..] && b == [b[0]] + b[1..];
      if Less(a, b) {
        var i: nat :| DiffersAt(a[1..], b[1..], i);
        assert a[..i + 1] == [a[0]] + a[1..][..i] && b[..i + 1] == [b[0]] + b[1..][..i];
        assert DiffersAt(a, b, i + 1);
      }
      if exists i: nat :: DiffersAt(a, b, i) {
        var i: nat :| DiffersAt(a, b, i);
        assert i > 0;
        assert a[1..][..i - 1] == a[..i][1..] && b[1..][..i - 1] == b[..i][1..];
        assert DiffersAt(a[1..], b[1..], i - 1);
      }
    }
  }

  // ---------- Sorting entries by key ----------

  datatype Entry<+T> = Entry(key: Str, value: T)

  function Insert<T>(e: Entry<T>, es: seq<Entry<T>>): seq<Entry<T>> {
    if es == [] then [e]
    else if Less(es[0].key, e.key) then [es[0]] + Insert(e, es[1..])
    else [e] + es
  }

  function Sort<T>(es: seq<Entry<T>>): seq<Entry<T>> {
    if es == [] then [] else Insert(es[0], Sort(es[1..]))
  }

  ghost predicate Distinct<T>(es: seq<Entry<T>>) {
    forall i, j | 0 <= i < j < |es| :: es[i].key != es[j].key
  }

  ghost predicate Sorted<T>(es: seq<Entry<T>>) {
    forall i, j | 0 <= i < j < |es| :: Less(es[i].key, es[j].key)
  }

  lemma {:induction false} InsertContents<T>(e: Entry<T>, es: seq<Entry<T>>)
    ensures multiset(Insert(e, es)) == multiset{e} + multiset(es)
  {
    if es != [] && Less(es[0].key, e.key) {
      InsertContents(e, es[1..]);
      assert es == [es[0]] + es[1..];
    }
  }

  lemma {:induction false} SortContents<T>(es: seq<Entry<T>>)
    ensures multiset(Sort(es)) == multiset(es)
  {
    if es != [] {
      SortContents(es[1..]);
      InsertContents(es[0], Sort(es[1..]));
      assert es == [es[0]] + es[1..];
    }
  }

  lemma SortMember<T>(es: seq<Entry<T>>, e: Entry<T>)
    ensures e in Sort(es) <==> e in es
  {
    SortContents(es);
    assert e in Sort(es) <==> e in multiset(Sort(es));
    assert e in es <==> e in multiset(es);
  }

  lemma {:induction false} InsertSorted<T>(e: Entry<T>, es: seq<Entry<T>>)
    requires Sorted(es) && forall f | f in es :: f.key != e.key
    ensures Sorted(Insert(e, es))
  {
    if es != [] {
      LessTotal(es[0].key, e.key);
      if Less(es[0].key, e.key) {
        InsertSorted(e, es[1..]);
        InsertContents(e, es[1..]);
        forall f | f in Insert(e, es[1..]) ensures Less(es[0].key, f.key) {
          assert f in multiset(Insert(e, es[1..]));
        }
      } else {
        forall f | f in es ensures Less(e.key, f.key) {
          if f != es[0] { LessTransitive(e.key, es[0].key, f.key); }
        }
      }
    }
  }

  lemma {:induction false} SortSorted<T>(es: seq<Entry<T>>)
    requires Distinct(es)
    ensures Sorted(Sort(es))
  {
    if es != [] {
      SortSorted(es[1..]);
      SortContents(es[1..]);
      forall f | f in Sort(es[1..]) ensures f.key != es[0].key {
        SortMember(es[1..], f);
      }
      InsertSorted(es[0], Sort(es[1..]));
    }
  }

  ghost function Keys<T>(es: seq<Entry<T>>): set<Str> {
    set e | e in es :: e.key
  }

  /** Two sorted sequences over the same keys list them in the same order. */
  lemma {:induction false} SortedKeysUnique<T, U>(a: seq<Entry<T>>, b: seq<Entry<U>>)
    requires Sorted(a) && Sorted(b) && Keys(a) == Keys(b)
    ensures |a| == |b| && forall i | 0 <= i < |a| :: a[i].key == b[i].key
  {
    assert b != [] ==> b[0].key in Keys(b);
    if a != [] {
      assert a[0].key in Keys(a);
      HeadIsLeast(a, b[0].key);
      HeadIsLeast(b, a[0].key);
      if a[0].key != b[0].key {
        LessTransitive(a[0].key, b[0].key, a[0].key);
        LessIrreflexive(a[0].key);
      }
      TailKeys(a);
      TailKeys(b);
      SortedKeysUnique(a[1..], b[1..]);
    }
  }

  lemma HeadIsLeast<T>(a: seq<Entry<T>>, k: Str)
    requires Sorted(a) && k in Keys(a)
    ensures a != [] && (a[0].key == k || Less(a[0].key, k))
  {
    var e :| e in a && e.key == k;
  }

  lemma TailKeys<T>(a: seq<Entry<T>>)
    requires a != [] && Sorted(a)
    ensures Sorted(a[1..]) && Keys(a[1..]) == Keys(a) - {a[0].key}
  {
    forall e | e in a[1..] ensures e.key != a[0].key {
      LessIrreflexive(a[0].key);
    }
    forall k | k in Keys(a) && k != a[0].key ensures k in Keys(a[1..]) {
      var e :| e in a && e.key == k;
      assert a == [a[0]] + a[1..];
      assert e in a[1..];
    }
    forall k | k in Keys(a[1..]) ensures k in Keys(a) {
      var e :| e in a[1..] && e.key == k;
      assert e in a;
    }
  }
}
