/** Values shared by every module: optional values, results, and the two
    JavaScript operators the source leans on everywhere: `a ?? b`
    (nullish coalescing) and truthiness of an optional string. */
module Common {

  /** `null` / `undefined` versus a present value. */
  datatype Option<T> = None | Some(value: T)

  /** A value or the error the source throws (or answers with) instead. */
  datatype Result<T, E> = Ok(value: T) | Err(error: E)

  /** `a ?? b`: the first operand unless it is null or undefined. An empty
      string is NOT nullish, so `Some("") ?? b` is `Some("")`. */
  function Coalesce<T>(a: Option<T>, b: Option<T>): (r: Option<T>)
    ensures a.Some? ==> r == a
    ensures a.None? ==> r == b
  {
    if a.Some? then a else b
  }

  /** Truthiness of a `string | null | undefined`: present and not "". */
  predicate Truthy(s: Option<string>)
  {
    s.Some? && s.value != ""
  }

  /** `s.filter(p)`: the elements of `s` satisfying `p`, in their order. */
  function Filter<T(!new)>(s: seq<T>, p: T -> bool): (r: seq<T>)
    ensures |r| <= |s|
    ensures forall x :: x in r <==> x in s && p(x)
    ensures r == [] <==> forall k :: 0 <= k < |s| ==> !p(s[k])
  {
    if s == [] then []
    else
      var front, last := s[..|s| - 1], s[|s| - 1];
      assert s == front + [last];
      var init := Filter(front, p);
      assert forall x :: x in s <==> x in front || x == last;
      if p(last) then init + [last] else init
  }

  /** `filter` keeps every satisfying element as often as it occurs, and no
      other element. */
  lemma {:induction false} FilterMultiset<T(!new)>(s: seq<T>, p: T -> bool)
    ensures forall x :: multiset(Filter(s, p))[x] == if p(x) then multiset(s)[x] else 0
  {
    if s != [] {
      var front, last := s[..|s| - 1], s[|s| - 1];
      assert s == front + [last];
      FilterMultiset(front, p);
      FilterSnoc(front, last, p);
    }
  }

  /** Filtering a sequence with one more element. */
  lemma FilterSnoc<T(!new)>(s: seq<T>, x: T, p: T -> bool)
    ensures Filter(s + [x], p) == Filter(s, p) + (if p(x) then [x] else [])
  {
    var t := s + [x];
    assert t[..|t| - 1] == s;
  }

  /** `filter` distributes over concatenation, so it keeps the order of the
      kept elements. */
  lemma {:induction false} FilterAppend<T(!new)>(a: seq<T>, b: seq<T>, p: T -> bool)
    ensures Filter(a + b, p) == Filter(a, p) + Filter(b, p)
    decreases |b|
  {
    if b == [] {
      assert a + b == a;
    } else {
      var b0, last := b[..|b| - 1], b[|b| - 1];
      var tail := if p(last) then [last] else [];
      assert b == b0 + [last];
      assert a + b == (a + b0) + [last];
      calc {
        Filter(a + b, p);
        { FilterSnoc(a + b0, last, p); }
        Filter(a + b0, p) + tail;
        { FilterAppend(a, b0, p); }
        (Filter(a, p) + Filter(b0, p)) + tail;
        Filter(a, p) + (Filter(b0, p) + tail);
        { FilterSnoc(b0, last, p); }
        Filter(a, p) + Filter(b, p);
      }
    }
  }

  /** No element occurs twice. */
  predicate Distinct<T(==)>(s: seq<T>)
  {
    forall i, j :: 0 <= i < j < |s| ==> s[i] != s[j]
  }

  /** Appending keeps a sequence distinct exactly when the new element is new. */
  lemma DistinctSnoc<T>(s: seq<T>, x: T)
    ensures Distinct(s + [x]) <==> Distinct(s) && x !in s
  {
    var t := s + [x];
    if Distinct(t) {
      forall i, j | 0 <= i < j < |s| ensures s[i] != s[j] {
        assert s[i] == t[i] && s[j] == t[j];
      }
      forall i | 0 <= i < |s| ensures s[i] != x {
        assert s[i] == t[i] && t[|s|] == x;
      }
    }
    if Distinct(s) && x !in s {
      forall i, j | 0 <= i < j < |t| ensures t[i] != t[j] {
        if j < |s| {
          assert t[i] == s[i] && t[j] == s[j];
        } else {
          assert t[i] in s;
        }
      }
    }
  }
}
