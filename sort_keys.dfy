/** `Array.prototype.sort()` on an object's keys: strings compared
    character by character, a proper prefix first. */
module KeyOrder {

  /** The default sort's comparison, `a < b`. */
  predicate StrLt(a: string, b: string)
  {
    if a == [] then b != []
    else if b == [] then false
    else if a[0] != b[0] then a[0] < b[0]
    else StrLt(a[1..], b[1..])
  }

  lemma {:induction false} StrLtIrreflexive(a: string)
    ensures !StrLt(a, a)
  {
    if a != [] {
      StrLtIrreflexive(a[1..]);
    }
  }

  lemma {:induction false} StrLtTransitive(a: string, b: string, c: string)
    requires StrLt(a, b) && StrLt(b, c)
    ensures StrLt(a, c)
  {
    if a != [] && b != [] && c != [] && a[0] == b[0] && b[0] == c[0] {
      StrLtTransitive(a[1..], b[1..], c[1..]);
    }
  }

  lemma {:induction false} StrLtTotal(a: string, b: string)
    requires a != b
    ensures StrLt(a, b) || StrLt(b, a)
  {
    if a != [] && b != [] && a[0] == b[0] {
      assert a == [a[0]] + a[1..] && b == [b[0]] + b[1..];
      StrLtTotal(a[1..], b[1..]);
    }
  }

  /** Strictly ascending, hence free of duplicates. */
  predicate StrictlySorted(s: seq<string>)
  {
    forall i, j :: 0 <= i < j < |s| ==> StrLt(s[i], s[j])
  }

  /** No key repeats, as in `Object.keys`. */
  predicate Distinct(s: seq<string>)
  {
    forall i, j :: 0 <= i < j < |s| ==> s[i] != s[j]
  }

  /** The keys a sequence holds. */
  function Elems(s: seq<string>): (r: set<string>)
    ensures forall x :: x in r <==> x in s
  {
    set x | x in s
  }

  /** Insert `k` before the first element above it. */
  function Insert(k: string, s: seq<string>): (r: seq<string>)
    ensures |r| == |s| + 1
    ensures Elems(r) == Elems(s) + {k}
  {
    if s == [] || StrLt(k, s[0]) then [k] + s
    else [s[0]] + Insert(k, s[1..])
  }

  /** The sorted copy of the keys. */
  function Sort(s: seq<string>): (r: seq<string>)
    ensures |r| == |s|
    ensures Elems(r) == Elems(s)
  {
    if s == [] then [] else Insert(s[0], Sort(s[1..]))
  }

  lemma {:induction false} InsertSorted(k: string, s: seq<string>)
    requires StrictlySorted(s) && k !in s
    ensures StrictlySorted(Insert(k, s))
  {
    var r := Insert(k, s);
    if s == [] {
    } else if StrLt(k, s[0]) {
      assert r == [k] + s;
      forall i, j | 0 <= i < j < |r|
        ensures StrLt(r[i], r[j])
      {
        if i == 0 && j > 1 {
          StrLtTransitive(k, s[0], s[j - 1]);
        }
      }
    } else {
      StrLtTotal(k, s[0]);
      InsertSorted(k, s[1..]);
      var t := Insert(k, s[1..]);
      assert r == [s[0]] + t;
      forall i, j | 0 <= i < j < |r|
        ensures StrLt(r[i], r[j])
      {
        if i == 0 {
          assert r[j] == t[j - 1];
          assert r[j] in Elems(t);
          if r[j] != k {
            assert r[j] in s[1..];
            var m :| 0 <= m < |s| - 1 && s[1..][m] == r[j];
            assert s[m + 1] == r[j];
          }
        } else {
          assert r[i] == t[i - 1] && r[j] == t[j - 1];
        }
      }
    }
  }

  /** Sorting distinct keys gives them in strictly ascending order. */
  lemma {:induction false} SortSorted(s: seq<string>)
    requires Distinct(s)
    ensures StrictlySorted(Sort(s))
  {
    if s != [] {
      SortSorted(s[1..]);
      assert s[0] !in s[1..];
      assert s[0] !in Sort(s[1..]) by {
        assert Elems(Sort(s[1..])) == Elems(s[1..]);
        assert s[0] !in Elems(s[1..]);
      }
      InsertSorted(s[0], Sort(s[1..]));
    }
  }

  lemma StrLtAsymmetric(a: string, b: string)
    ensures !(StrLt(a, b) && StrLt(b, a))
  {
    StrLtIrreflexive(a);
    if StrLt(a, b) && StrLt(b, a) {
      StrLtTransitive(a, b, a);
    }
  }

  lemma EmptyElems(s: seq<string>)
    ensures s == [] <==> Elems(s) == {}
  {
    if s != [] {
      assert s[0] in Elems(s);
    }
  }

  /** The head of a strictly sorted sequence is below every other key. */
  lemma HeadIsLeast(s: seq<string>)
    requires StrictlySorted(s) && s != []
    ensures forall x :: x in s ==> x == s[0] || StrLt(s[0], x)
  {
    forall x | x in s
      ensures x == s[0] || StrLt(s[0], x)
    {
      var i :| 0 <= i < |s| && s[i] == x;
    }
  }

  /** Two strictly sorted sequences of the same keys are the same
      sequence: the order keys were added in cannot show through. */
  lemma {:induction false} SortedUnique(a: seq<string>, b: seq<string>)
    requires StrictlySorted(a) && StrictlySorted(b)
    requires Elems(a) == Elems(b)
    ensures a == b
  {
    EmptyElems(a);
    EmptyElems(b);
    if a != [] && b != [] {
      HeadIsLeast(a);
      HeadIsLeast(b);
      assert a[0] in Elems(b) && b[0] in Elems(a);
      StrLtAsymmetric(a[0], b[0]);
      assert a[0] == b[0];
      StrLtIrreflexive(a[0]);
      assert Elems(a[1..]) == Elems(a) - {a[0]};
      assert Elems(b[1..]) == Elems(b) - {b[0]};
      SortedUnique(a[1..], b[1..]);
      assert a == [a[0]] + a[1..] && b == [b[0]] + b[1..];
    }
  }

  /** Sorting two enumerations of the same keys gives the same order. */
  lemma SortOrderIndependent(s: seq<string>, t: seq<string>)
    requires Distinct(s) && Distinct(t)
    requires Elems(s) == Elems(t)
    ensures Sort(s) == Sort(t)
  {
    SortSorted(s);
    SortSorted(t);
    SortedUnique(Sort(s), Sort(t));
  }
}
