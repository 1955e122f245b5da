// Shared vocabulary of the model: optional values, JavaScript truthiness,
// opaque dates, and the array operations the components use (`filter`,
// `find`) as functions with their defining properties.

module Base {

  datatype Option<T> = None | Some(value: T)

  /** JavaScript truthiness of a string: only the empty string is falsy. */
  predicate Present(s: string) {
    |s| > 0
  }

  /** Truthiness of an optional id: `null`, `undefined` and `""` are falsy. */
  predicate Selected(id: Option<string>) {
    id.Some? && id.value != ""
  }

  /** `id || ''` */
  function OrEmpty(id: Option<string>): (r: string)
    ensures Selected(id) ==> r == id.value
    ensures !Selected(id) ==> r == ""
  {
    if id.Some? then id.value else ""
  }

  /** A date is opaque. `At(day)` carries the `yyyy-mm-dd` text it was parsed
      from (or the clock reading for `new Date()`); `Invalid` is the
      "Invalid Date" that `new Date("")` produces. */
  datatype Date = Invalid | At(day: string)

  /** `new Date(text)` for the text of a date input, which is either empty or
      a well-formed day. */
  function ParseDate(text: string): (d: Date)
    ensures d.Invalid? <==> text == ""
    ensures d.At? ==> d.day == text
  {
    if text == "" then Invalid else At(text)
  }

  /** `date.toISOString().split('T')[0]` for a stored (valid) date. */
  function DayText(d: Date): (text: string)
    ensures d.At? ==> ParseDate(text) == d || text == ""
  {
    match d
    case At(day) => day
    case Invalid => ""
  }

  /** `s.filter(p)`. */
  function Filter<T(==)>(s: seq<T>, p: T -> bool): (r: seq<T>)
    ensures |r| <= |s|
    ensures forall i :: 0 <= i < |r| ==> r[i] in s && p(r[i])
    ensures forall i :: 0 <= i < |s| && p(s[i]) ==> s[i] in r
  {
    if s == [] then []
    else (if p(s[0]) then [s[0]] else []) + Filter(s[1..], p)
  }

  /** `s.filter(p).length`. */
  function Count<T(==)>(s: seq<T>, p: T -> bool): (n: nat)
    ensures n <= |s|
    ensures n == 0 <==> forall i :: 0 <= i < |s| ==> !p(s[i])
  {
    var r := Filter(s, p);
    assert r != [] ==> r[0] in s && p(r[0]);
    |r|
  }

  /** The first element satisfying `p`, as `s.find(p)`. */
  function FindFirst<T>(s: seq<T>, p: T -> bool): (r: Option<T>)
    ensures r.None? <==> forall i :: 0 <= i < |s| ==> !p(s[i])
    ensures r.Some? ==> exists i :: 0 <= i < |s| && s[i] == r.value && p(s[i]) && forall j :: 0 <= j < i ==> !p(s[j])
  {
    if s == [] then None
    else if p(s[0]) then Some(s[0])
    else
      var r := FindFirst(s[1..], p);
      assert forall i :: 1 <= i < |s| ==> s[i] == s[1..][i - 1];
      r
  }

  /** `a` is obtained from `b` by deleting elements: order is preserved. */
  predicate IsSubsequence<T(==)>(a: seq<T>, b: seq<T>)
    decreases |b|
  {
    if a == [] then true
    else if b == [] then false
    else if a[0] == b[0] then IsSubsequence(a[1..], b[1..])
    else IsSubsequence(a, b[1..])
  }

  lemma {:induction false} FilterIsSubsequence<T>(s: seq<T>, p: T -> bool)
    ensures IsSubsequence(Filter(s, p), s)
  {
    if s != [] {
      FilterIsSubsequence(s[1..], p);
      var r := Filter(s, p);
      if p(s[0]) {
        assert r == [s[0]] + Filter(s[1..], p);
        assert r[1..] == Filter(s[1..], p);
      } else {
        assert r == Filter(s[1..], p);
        if r != [] {
          assert p(r[0]);
        }
      }
    }
  }

  /** A filter whose predicate holds everywhere is the identity. */
  lemma {:induction false} FilterKeepsAll<T>(s: seq<T>, p: T -> bool)
    requires forall i :: 0 <= i < |s| ==> p(s[i])
    ensures Filter(s, p) == s
  {
    if s != [] {
      FilterKeepsAll(s[1..], p);
    }
  }

  /** Filters by pointwise-equal predicates agree. */
  lemma {:induction false} FilterExt<T>(s: seq<T>, p: T -> bool, q: T -> bool)
    requires forall x :: p(x) == q(x)
    ensures Filter(s, p) == Filter(s, q)
  {
    if s != [] {
      FilterExt(s[1..], p, q);
    }
  }

  /** One stage of a filter chain that applies `p` only when `active`:
      the chain so far (`acc`) followed by this stage is one filter by `next`. */
  lemma FilterStage<T>(s: seq<T>, acc: T -> bool, active: bool, p: T -> bool, next: T -> bool)
    requires forall x :: next(x) == (acc(x) && (active ==> p(x)))
    ensures (if active then Filter(Filter(s, acc), p) else Filter(s, acc)) == Filter(s, next)
  {
    if active {
      FilterFuse(s, acc, p, next);
    } else {
      FilterExt(s, acc, next);
    }
  }

  /** Filtering twice is filtering once by the conjunction. */
  lemma {:induction false} FilterFuse<T>(s: seq<T>, p: T -> bool, q: T -> bool, pq: T -> bool)
    requires forall x :: pq(x) == (p(x) && q(x))
    ensures Filter(Filter(s, p), q) == Filter(s, pq)
  {
    if s != [] {
      FilterFuse(s[1..], p, q, pq);
      if p(s[0]) {
        assert Filter(s, p) == [s[0]] + Filter(s[1..], p);
        FilterAppend([s[0]], Filter(s[1..], p), q);
        FilterSingleton(s[0], q);
      } else {
        assert Filter(s, p) == Filter(s[1..], p);
      }
    }
  }

  lemma FilterSingleton<T>(x: T, p: T -> bool)
    ensures Filter([x], p) == if p(x) then [x] else []
  {
    assert [x][1..] == [];
  }

  lemma {:induction false} FilterAppend<T>(a: seq<T>, b: seq<T>, p: T -> bool)
    ensures Filter(a + b, p) == Filter(a, p) + Filter(b, p)
  {
    if a != [] {
      assert (a + b)[1..] == a[1..] + b;
      FilterAppend(a[1..], b, p);
    } else {
      assert a + b == b;
    }
  }

  /** A predicate and its negation split a sequence into two parts that
      together hold every element exactly as often as the sequence does. */
  lemma {:induction false} FilterPartition<T>(s: seq<T>, p: T -> bool, notP: T -> bool)
    requires forall x :: notP(x) == !p(x)
    ensures multiset(Filter(s, p)) + multiset(Filter(s, notP)) == multiset(s)
    ensures |Filter(s, p)| + |Filter(s, notP)| == |s|
  {
    if s != [] {
      FilterPartition(s[1..], p, notP);
      assert s == [s[0]] + s[1..];
    }
  }

  /** Counting by `q` over the whole sequence is counting over each side of
      the split by `p`. */
  lemma {:induction false} CountSplit<T>(s: seq<T>, p: T -> bool, notP: T -> bool, q: T -> bool)
    requires forall x :: notP(x) == !p(x)
    ensures Count(s, q) == Count(Filter(s, p), q) + Count(Filter(s, notP), q)
  {
    if s != [] {
      CountSplit(s[1..], p, notP, q);
      FilterSingleton(s[0], q);
      if p(s[0]) {
        assert Filter(s, p) == [s[0]] + Filter(s[1..], p);
        assert Filter(s, notP) == Filter(s[1..], notP);
        FilterAppend([s[0]], Filter(s[1..], p), q);
      } else {
        assert Filter(s, notP) == [s[0]] + Filter(s[1..], notP);
        assert Filter(s, p) == Filter(s[1..], p);
        FilterAppend([s[0]], Filter(s[1..], notP), q);
      }
    }
  }
}
