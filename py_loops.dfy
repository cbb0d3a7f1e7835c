/** The meaning of the handlers' `for ...: out.append(...)` loops. A loop visits the elements in
  * order and stops at the first element whose processing raises; `MapR` keeps one output per input,
  * `FilterMapR` keeps only the elements for which the body appends something. Both are defined on
  * the last element, the way a loop extends its list. */
module PyLoops {
  import opened Wrappers
  import opened PyJson
  import StableSort
  import Text

  function MapR<A, B>(f: A -> PyResult<B>, s: seq<A>): (r: PyResult<seq<B>>)
    ensures r.Ok? ==> |r.value| == |s|
    decreases |s|
  {
    if s == [] then Ok([])
    else
      var init :- MapR(f, s[..|s| - 1]);
      var y :- f(s[|s| - 1]);
      Ok(init + [y])
  }

  /** A successful loop produced `f` of every element, in order. */
  lemma {:induction false} MapROk<A, B>(f: A -> PyResult<B>, s: seq<A>)
    requires MapR(f, s).Ok?
    ensures forall i :: 0 <= i < |s| ==> f(s[i]) == Ok(MapR(f, s).value[i])
    decreases |s|
  {
    if s != [] {
      var p := s[..|s| - 1];
      MapROk(f, p);
      forall i | 0 <= i < |s| ensures f(s[i]) == Ok(MapR(f, s).value[i]) {
        if i < |s| - 1 {
          assert s[i] == p[i];
        }
      }
    }
  }

  /** The loop succeeds exactly when every element's body succeeds. */
  lemma {:induction false} MapROkIff<A, B>(f: A -> PyResult<B>, s: seq<A>)
    ensures MapR(f, s).Ok? <==> forall i :: 0 <= i < |s| ==> f(s[i]).Ok?
    decreases |s|
  {
    if s != [] {
      var p := s[..|s| - 1];
      MapROkIff(f, p);
      assert forall i :: 0 <= i < |p| ==> p[i] == s[i];
    }
  }

  /** Once a prefix of the loop has raised, the whole loop raises the same exception. */
  lemma {:induction false} MapRPrefixRaise<A, B>(f: A -> PyResult<B>, s: seq<A>, k: nat)
    requires k <= |s|
    requires MapR(f, s[..k]).Raise?
    ensures MapR(f, s) == MapR(f, s[..k])
    decreases |s| - k
  {
    if k < |s| {
      assert s[..k + 1][..k] == s[..k];
      MapRPrefixRaise(f, s, k + 1);
    } else {
      assert s[..k] == s;
    }
  }

  function FilterMapR<A, B>(f: A -> PyResult<Option<B>>, s: seq<A>): (r: PyResult<seq<B>>)
    ensures r.Ok? ==> |r.value| <= |s|
    decreases |s|
  {
    if s == [] then Ok([])
    else
      var init :- FilterMapR(f, s[..|s| - 1]);
      var y :- f(s[|s| - 1]);
      Ok(if y.Some? then init + [y.value] else init)
  }

  /** Once a prefix of the loop has raised, the whole loop raises the same exception. */
  lemma {:induction false} FilterMapRPrefixRaise<A, B>(f: A -> PyResult<Option<B>>, s: seq<A>, k: nat)
    requires k <= |s|
    requires FilterMapR(f, s[..k]).Raise?
    ensures FilterMapR(f, s) == FilterMapR(f, s[..k])
    decreases |s| - k
  {
    if k < |s| {
      assert s[..k + 1][..k] == s[..k];
      FilterMapRPrefixRaise(f, s, k + 1);
    } else {
      assert s[..k] == s;
    }
  }

  /** The elements of `s` that satisfy `p`, in order. */
  function Filter<A>(p: A -> bool, s: seq<A>): (r: seq<A>)
    ensures |r| <= |s|
    ensures forall i :: 0 <= i < |r| ==> p(r[i]) && r[i] in s
    decreases |s|
  {
    if s == [] then []
    else Filter(p, s[..|s| - 1]) + (if p(s[|s| - 1]) then [s[|s| - 1]] else [])
  }

  /** Nothing is kept when no element satisfies `p`. */
  lemma {:induction false} FilterNone<A>(p: A -> bool, s: seq<A>)
    requires forall i :: 0 <= i < |s| ==> !p(s[i])
    ensures Filter(p, s) == []
    decreases |s|
  {
    if s != [] {
      FilterNone(p, s[..|s| - 1]);
    }
  }

  /** An element is kept exactly when it is in `s` and satisfies `p`. */
  lemma {:induction false} FilterMember<A>(p: A -> bool, s: seq<A>, x: A)
    ensures x in Filter(p, s) <==> x in s && p(x)
    decreases |s|
  {
    if s != [] {
      var q := s[..|s| - 1];
      FilterMember(p, q, x);
      assert s == q + [s[|s| - 1]];
    }
  }

  /** Where the kept elements came from: `Filter` keeps a subsequence, each kept element at a
    * position of `s`, the positions strictly increasing. */
  function FilterIndices<A>(p: A -> bool, s: seq<A>): (idx: seq<nat>)
    ensures |idx| == |Filter(p, s)|
    ensures forall k :: 0 <= k < |idx| ==> idx[k] < |s| && s[idx[k]] == Filter(p, s)[k]
    ensures forall k, l :: 0 <= k < l < |idx| ==> idx[k] < idx[l]
    decreases |s|
  {
    if s == [] then []
    else FilterIndices(p, s[..|s| - 1]) + (if p(s[|s| - 1]) then [|s| - 1] else [])
  }

  /** A computation that yields a value, as one that yields `Some` value. */
  function AsSome<B>(r: PyResult<B>): (o: PyResult<Option<B>>)
    ensures r.Ok? <==> o.Ok?
    ensures r.Ok? ==> o.value == Some(r.value)
    ensures r.Raise? ==> o.error == r.error
  {
    match r
    case Ok(v) => Ok(Some(v))
    case Raise(e) => Raise(e)
  }

  /** A filtering loop whose body tests `p` and then builds `g` of the element is the loop
    * building `g` of every element of `Filter(p, s)`. */
  lemma {:induction false} FilterMapRSplit<A, B>(f: A -> PyResult<Option<B>>, p: A -> bool, g: A -> PyResult<B>, s: seq<A>)
    requires forall i :: 0 <= i < |s| ==> f(s[i]) == (if p(s[i]) then AsSome(g(s[i])) else Ok(None))
    ensures FilterMapR(f, s) == MapR(g, Filter(p, s))
    decreases |s|
  {
    if s != [] {
      var q := s[..|s| - 1];
      var x := s[|s| - 1];
      assert forall i :: 0 <= i < |q| ==> q[i] == s[i];
      FilterMapRSplit(f, p, g, q);
      var fq := Filter(p, q);
      if p(x) {
        assert Filter(p, s) == fq + [x];
        assert (fq + [x])[..|fq + [x]| - 1] == fq;
      } else {
        assert Filter(p, s) == fq;
      }
    }
  }

  /** A nested loop appending every output of every element: the outputs of `f`, concatenated in
    * order, up to the first element whose processing raises. */
  function FlatMapR<A, B>(f: A -> PyResult<seq<B>>, s: seq<A>): (r: PyResult<seq<B>>)
    decreases |s|
  {
    if s == [] then Ok([])
    else
      var init :- FlatMapR(f, s[..|s| - 1]);
      var ys :- f(s[|s| - 1]);
      Ok(init + ys)
  }

  /** Once a prefix of the loop has raised, the whole loop raises the same exception. */
  lemma {:induction false} FlatMapRPrefixRaise<A, B>(f: A -> PyResult<seq<B>>, s: seq<A>, k: nat)
    requires k <= |s|
    requires FlatMapR(f, s[..k]).Raise?
    ensures FlatMapR(f, s) == FlatMapR(f, s[..k])
    decreases |s| - k
  {
    if k < |s| {
      assert s[..k + 1][..k] == s[..k];
      FlatMapRPrefixRaise(f, s, k + 1);
    } else {
      assert s[..k] == s;
    }
  }

  /** Concatenation: the outputs for `s + t` are those for `s` followed by those for `t`, and the
    * first exception wins. */
  lemma {:induction false} FlatMapRAppend<A, B>(f: A -> PyResult<seq<B>>, s: seq<A>, t: seq<A>)
    ensures FlatMapR(f, s + t) ==
      if FlatMapR(f, s).Raise? then FlatMapR(f, s)
      else if FlatMapR(f, t).Raise? then FlatMapR(f, t)
      else Ok(FlatMapR(f, s).value + FlatMapR(f, t).value)
    decreases |t|
  {
    if t == [] {
      assert s + t == s;
      if FlatMapR(f, s).Ok? {
        assert FlatMapR(f, s).value + [] == FlatMapR(f, s).value;
      }
    } else {
      var t' := t[..|t| - 1];
      assert (s + t)[..|s + t| - 1] == s + t';
      assert (s + t)[|s + t| - 1] == t[|t| - 1];
      FlatMapRAppend(f, s, t');
      if FlatMapR(f, s).Ok? && FlatMapR(f, t').Ok? && f(t[|t| - 1]).Ok? {
        assert FlatMapR(f, s).value + FlatMapR(f, t').value + f(t[|t| - 1]).value ==
               FlatMapR(f, s).value + (FlatMapR(f, t').value + f(t[|t| - 1]).value);
      }
    }
  }

  /** One element contributes exactly its own outputs. */
  lemma FlatMapRSingle<A, B>(f: A -> PyResult<seq<B>>, x: A)
    ensures FlatMapR(f, [x]) == f(x)
  {
    assert [x][..0] == [];
    assert FlatMapR(f, []) == Ok([]);
    if f(x).Ok? {
      assert [] + f(x).value == f(x).value;
    }
  }

  /** The elements `f` keeps, in order: the total counterpart of `FilterMapR` for loops whose
    * body cannot raise. */
  function FilterMap<A, B>(f: A -> Option<B>, s: seq<A>): (r: seq<B>)
    ensures |r| <= |s|
    decreases |s|
  {
    if s == [] then []
    else
      var init := FilterMap(f, s[..|s| - 1]);
      var y := f(s[|s| - 1]);
      if y.Some? then init + [y.value] else init
  }

  /** Every kept element is `f`'s value on some input; it is kept at the position of its input
    * among the kept ones, so the kept list is a subsequence. */
  lemma {:induction false} FilterMapMember<A, B>(f: A -> Option<B>, s: seq<A>, y: B)
    ensures y in FilterMap(f, s) <==> exists i :: 0 <= i < |s| && f(s[i]) == Some(y)
    decreases |s|
  {
    if s != [] {
      var p := s[..|s| - 1];
      FilterMapMember(f, p, y);
      assert forall i :: 0 <= i < |p| ==> p[i] == s[i];
      if y in FilterMap(f, s) && y !in FilterMap(f, p) {
        assert f(s[|s| - 1]) == Some(y);
      }
      if exists i :: 0 <= i < |s| && f(s[i]) == Some(y) {
        var i :| 0 <= i < |s| && f(s[i]) == Some(y);
        if i < |p| {
          assert f(p[i]) == Some(y);
        }
      }
    }
  }

  /** One more element: `FilterMap` keeps what it kept and `f`'s value on the new element, if any. */
  lemma FilterMapSnoc<A, B>(f: A -> Option<B>, s: seq<A>, x: A)
    ensures FilterMap(f, s + [x]) == FilterMap(f, s) + (if f(x).Some? then [f(x).value] else [])
  {
    assert (s + [x])[..|s + [x]| - 1] == s;
  }

  /** `FilterMap` keeps everything `f` keeps in a prefix and then goes on. */
  lemma {:induction false} FilterMapAppend<A, B>(f: A -> Option<B>, s: seq<A>, t: seq<A>)
    ensures FilterMap(f, s + t) == FilterMap(f, s) + FilterMap(f, t)
    decreases |t|
  {
    if t == [] {
      assert s + t == s;
    } else {
      var t' := t[..|t| - 1];
      assert (s + t)[..|s + t| - 1] == s + t';
      FilterMapAppend(f, s, t');
    }
  }

  /** A loop that assigns its variable whenever `f` finds something in an element and otherwise
    * leaves it alone: after the loop it holds the last find, or None. */
  function LastFound<A, X>(f: A -> PyResult<Option<X>>, s: seq<A>): (r: PyResult<Option<X>>)
    decreases |s|
  {
    if s == [] then Ok(None)
    else
      var prev :- LastFound(f, s[..|s| - 1]);
      var y :- f(s[|s| - 1]);
      Ok(if y.Some? then y else prev)
  }

  /** Once a prefix of the loop has raised, the whole loop raises the same exception. */
  lemma {:induction false} LastFoundPrefixRaise<A, X>(f: A -> PyResult<Option<X>>, s: seq<A>, k: nat)
    requires k <= |s|
    requires LastFound(f, s[..k]).Raise?
    ensures LastFound(f, s) == LastFound(f, s[..k])
    decreases |s| - k
  {
    if k < |s| {
      assert s[..k + 1][..k] == s[..k];
      LastFoundPrefixRaise(f, s, k + 1);
    } else {
      assert s[..k] == s;
    }
  }

  /** The last find wins: the result comes from some element, and every later element found
    * nothing. */
  lemma {:induction false} LastFoundIsLast<A, X>(f: A -> PyResult<Option<X>>, s: seq<A>, x: X)
    requires LastFound(f, s) == Ok(Some(x))
    ensures exists i :: 0 <= i < |s| && f(s[i]) == Ok(Some(x)) &&
                        forall j :: i < j < |s| ==> f(s[j]) == Ok(None)
    decreases |s|
  {
    var p := s[..|s| - 1];
    var y := f(s[|s| - 1]);
    if y == Ok(Some(x)) {
    } else {
      assert y == Ok(None);
      LastFoundIsLast(f, p, x);
      var i :| 0 <= i < |p| && f(p[i]) == Ok(Some(x)) && forall j :: i < j < |p| ==> f(p[j]) == Ok(None);
      assert f(s[i]) == Ok(Some(x));
      assert forall j :: i < j < |s| ==> f(s[j]) == Ok(None) by {
        forall j | i < j < |s| ensures f(s[j]) == Ok(None) {
          if j < |p| {
            assert s[j] == p[j];
          }
        }
      }
    }
  }

  /** Nothing is found exactly when every element is processed and found nothing. */
  lemma {:induction false} LastFoundNone<A, X>(f: A -> PyResult<Option<X>>, s: seq<A>)
    ensures LastFound(f, s) == Ok(None) <==> forall i :: 0 <= i < |s| ==> f(s[i]) == Ok(None)
    decreases |s|
  {
    if s != [] {
      var p := s[..|s| - 1];
      LastFoundNone(f, p);
      assert forall i :: 0 <= i < |p| ==> p[i] == s[i];
    }
  }

  /** The numeric sort key `key` stands for when every key is a number. */
  function NumericKey<T>(key: T -> Json): (k: T -> int)
  {
    (x: T) => AsNumber(key(x)).GetOr(0)
  }

  predicate AllNumeric<T>(s: seq<T>, key: T -> Json) {
    forall i :: 0 <= i < |s| ==> AsNumber(key(s[i])).Some?
  }

  predicate AllStrings<T>(s: seq<T>, key: T -> Json) {
    forall i :: 0 <= i < |s| ==> key(s[i]).JStr?
  }

  /** The text of a string key ("" for any other value). */
  function KeyText(j: Json): string {
    if j.JStr? then j.s else ""
  }

  /** How many elements of `s` have a string key below `x`. */
  function CountBelow<T>(s: seq<T>, key: T -> Json, x: string): (n: nat)
    ensures n <= |s|
  {
    if s == [] then 0
    else (if Text.LexLess(KeyText(key(s[0])), x) then 1 else 0) + CountBelow(s[1..], key, x)
  }

  /** For string keys, the rank of an element's key among the keys of `s`: an integer key that
    * orders the elements of `s` as their strings do. */
  function RankKey<T>(s: seq<T>, key: T -> Json): (k: T -> int)
  {
    (x: T) => CountBelow(s, key, KeyText(key(x)))
  }

  /** The integer key the sort of `s` orders by. */
  function SortKey<T>(s: seq<T>, key: T -> Json): (k: T -> int)
  {
    if AllStrings(s, key) then RankKey(s, key) else NumericKey(key)
  }

  /** A non-empty list of numeric keys is sorted by the numbers themselves. */
  lemma NumericSortKey<T>(s: seq<T>, key: T -> Json)
    requires s != [] && AllNumeric(s, key)
    ensures SortKey(s, key) == NumericKey(key)
  {
    assert AsNumber(key(s[0])).Some?;
  }

  /** `items.sort(key=key, reverse=True)`: a stable sort by descending key. Keys that are all
    * numbers compare as numbers and keys that are all strings compare lexicographically; a list
    * of at most one item is returned without any comparison. Any other list of two or more items
    * meets a pair Python cannot order and raises TypeError. */
  function SortByKeyDesc<T>(s: seq<T>, key: T -> Json): (r: PyResult<seq<T>>)
    ensures |s| <= 1 ==> r == Ok(s)
    ensures r.Ok? ==> multiset(r.value) == multiset(s) && |r.value| == |s|
    ensures r.Ok? <==> |s| <= 1 || AllNumeric(s, key) || AllStrings(s, key)
  {
    if |s| <= 1 then Ok(s)
    else if AllNumeric(s, key) || AllStrings(s, key) then Ok(StableSort.SortDesc(s, SortKey(s, key)))
    else Raise(TypeError)
  }

  /** A successful sort orders by non-increasing key and keeps equal keys in input order. */
  lemma SortByKeyDescOrdered<T>(s: seq<T>, key: T -> Json, k: int)
    requires SortByKeyDesc(s, key).Ok?
    ensures StableSort.NonIncreasing(SortByKeyDesc(s, key).value, SortKey(s, key))
    ensures StableSort.WithKey(SortByKeyDesc(s, key).value, SortKey(s, key), k) ==
            StableSort.WithKey(s, SortKey(s, key), k)
  {
    if |s| <= 1 {
      StableSort.SortDescOfOrdered(s, SortKey(s, key));
    }
    StableSort.SortDescOrdered(s, SortKey(s, key));
    StableSort.SortDescStable(s, SortKey(s, key), k);
  }

  /** Every string key below `a` is below `b` too when `a` is below `b`. */
  lemma {:induction false} CountBelowMonotone<T>(s: seq<T>, key: T -> Json, a: string, b: string)
    requires Text.LexLess(a, b)
    ensures CountBelow(s, key, a) <= CountBelow(s, key, b)
    decreases |s|
  {
    if s != [] {
      if Text.LexLess(KeyText(key(s[0])), a) {
        Text.LexLessTransitive(KeyText(key(s[0])), a, b);
      }
      CountBelowMonotone(s[1..], key, a, b);
    }
  }

  /** ... and strictly more keys are below `b` when `a` is itself one of the keys. */
  lemma {:induction false} CountBelowStrict<T>(s: seq<T>, key: T -> Json, a: string, b: string, i: nat)
    requires i < |s| && KeyText(key(s[i])) == a && Text.LexLess(a, b)
    ensures CountBelow(s, key, a) < CountBelow(s, key, b)
    decreases |s|
  {
    if i == 0 {
      Text.LexLessIrreflexive(a);
      CountBelowMonotone(s[1..], key, a, b);
    } else {
      if Text.LexLess(KeyText(key(s[0])), a) {
        Text.LexLessTransitive(KeyText(key(s[0])), a, b);
      }
      CountBelowStrict(s[1..], key, a, b, i - 1);
    }
  }

  /** On the elements of a list Python can sort, the integer sort key orders exactly as Python's
    * comparison of their keys does. */
  lemma SortKeyMeaning<T>(s: seq<T>, key: T -> Json, i: nat, j: nat)
    requires AllNumeric(s, key) || AllStrings(s, key)
    requires i < |s| && j < |s|
    ensures Compare(key(s[i]), key(s[j])).Ok?
    ensures SortKey(s, key)(s[i]) < SortKey(s, key)(s[j]) <==> Compare(key(s[i]), key(s[j])) == Ok(-1)
    ensures SortKey(s, key)(s[i]) == SortKey(s, key)(s[j]) <==> Compare(key(s[i]), key(s[j])) == Ok(0)
  {
    if AllStrings(s, key) {
      var a, b := key(s[i]).s, key(s[j]).s;
      if a == b {
        Text.LexLessIrreflexive(a);
      } else {
        Text.LexLessTotal(a, b);
        if Text.LexLess(a, b) {
          CountBelowStrict(s, key, a, b, i);
          assert !Text.LexLess(b, a) by {
            if Text.LexLess(b, a) {
              Text.LexLessTransitive(a, b, a);
              Text.LexLessIrreflexive(a);
            }
          }
        } else {
          CountBelowStrict(s, key, b, a, j);
        }
      }
    }
  }

  /** A successful sort of two or more items leaves no item whose key Python ranks above the key
    * of an item before it. */
  lemma SortByKeyDescSorted<T>(s: seq<T>, key: T -> Json, i: nat, j: nat)
    requires |s| >= 2 && SortByKeyDesc(s, key).Ok?
    requires i < j < |s|
    ensures var out := SortByKeyDesc(s, key).value;
      Compare(key(out[i]), key(out[j])).Ok? && Compare(key(out[i]), key(out[j])).value >= 0
  {
    var out := SortByKeyDesc(s, key).value;
    SortByKeyDescOrdered(s, key, 0);
    assert out[i] in multiset(s) && out[j] in multiset(s);
    var a :| 0 <= a < |s| && s[a] == out[i];
    var b :| 0 <= b < |s| && s[b] == out[j];
    SortKeyMeaning(s, key, b, a);
    SortKeyMeaning(s, key, a, b);
  }
}
