/** Shared value types: optional values, call outcomes, JavaScript's `||`
    defaults on optional strings and numbers, and list filtering. */
module Common {

  datatype Option<+T> = None | Some(value: T) {
    function GetOr(default: T): T {
      match this
      case Some(v) => v
      case None => default
    }
  }

  /** The outcome of one awaited call: it resolves, or it rejects with an
      error whose `message` may be empty. */
  datatype Outcome = Pass | Fail(message: string)

  /** A response body that should be a list but may be anything else. */
  datatype Payload<T> = Array(elements: seq<T>) | NotArray

  /** `Array.isArray(d) ? d : []` */
  function AsList<T>(d: Payload<T>): (r: seq<T>)
    ensures d.Array? ==> r == d.elements
    ensures d.NotArray? ==> r == []
  {
    match d
    case Array(xs) => xs
    case NotArray => []
  }

  /** JavaScript truthiness of an optional string: absent and "" are falsy. */
  predicate Truthy(s: Option<string>) {
    s.Some? && s.value != ""
  }

  /** `s || d` for an optional string. */
  function OrElse(s: Option<string>, d: string): (r: string)
    ensures Truthy(s) ==> r == s.value
    ensures !Truthy(s) ==> r == d
  {
    if Truthy(s) then s.value else d
  }

  /** `n || 0` for an optional number: absent and 0 both give 0. */
  function OrZero(n: Option<int>): (r: int)
    ensures n.None? ==> r == 0
    ensures n.Some? ==> r == n.value
  {
    if n.Some? && n.value != 0 then n.value else 0
  }

  /** `err.message || fallback`, the message a handler shows for a rejection. */
  function MessageOr(message: string, fallback: string): (r: string)
    ensures message != "" ==> r == message
    ensures message == "" ==> r == fallback
  {
    OrElse(Some(message), fallback)
  }

  /** `Array.prototype.filter`: the elements satisfying `f`, in order. */
  function Filter<T>(s: seq<T>, f: T -> bool): (r: seq<T>)
    ensures |r| <= |s|
    ensures forall x :: x in r ==> x in s && f(x)
  {
    if s == [] then [] else (if f(s[0]) then [s[0]] else []) + Filter(s[1..], f)
  }

  /** An element of `s` passing `f` survives the filter. */
  lemma {:induction false} FilterKeeps<T>(s: seq<T>, f: T -> bool, x: T)
    requires x in s && f(x)
    ensures x in Filter(s, f)
  {
    if s[0] != x {
      FilterKeeps(s[1..], f, x);
    }
  }

  /** Filtering distributes over concatenation, so the relative order of the
      kept elements is the order they had in the input. */
  lemma {:induction false} FilterConcat<T>(a: seq<T>, b: seq<T>, f: T -> bool)
    ensures Filter(a + b, f) == Filter(a, f) + Filter(b, f)
  {
    if a == [] {
      assert a + b == b;
    } else {
      assert (a + b)[0] == a[0];
      assert (a + b)[1..] == a[1..] + b;
      FilterConcat(a[1..], b, f);
    }
  }

  /** Nothing is removed when every element passes. */
  lemma {:induction false} FilterAll<T>(s: seq<T>, f: T -> bool)
    requires forall i :: 0 <= i < |s| ==> f(s[i])
    ensures Filter(s, f) == s
  {
    if s != [] {
      FilterAll(s[1..], f);
    }
  }

  /** Everything is removed when no element passes. */
  lemma {:induction false} FilterNone<T>(s: seq<T>, f: T -> bool)
    requires forall i :: 0 <= i < |s| ==> !f(s[i])
    ensures Filter(s, f) == []
  {
    if s != [] {
      FilterNone(s[1..], f);
    }
  }

  /** Filtering twice is filtering once by the conjunction. */
  lemma {:induction false} FilterTwice<T>(s: seq<T>, f: T -> bool, g: T -> bool, h: T -> bool)
    requires forall x :: h(x) == (f(x) && g(x))
    ensures Filter(Filter(s, f), g) == Filter(s, h)
  {
    if s != [] {
      FilterTwice(s[1..], f, g, h);
      assert h(s[0]) == (f(s[0]) && g(s[0]));
      if f(s[0]) {
        assert Filter(s, f) == [s[0]] + Filter(s[1..], f);
        FilterConcat([s[0]], Filter(s[1..], f), g);
        assert [s[0]][1..] == [];
        assert Filter([s[0]], g) == (if g(s[0]) then [s[0]] else []);
      } else {
        assert Filter(s, f) == Filter(s[1..], f);
      }
    }
  }

  lemma FilterUnfold<T>(s: seq<T>, f: T -> bool)
    requires s != []
    ensures Filter(s, f) == (if f(s[0]) then [s[0]] else []) + Filter(s[1..], f)
  {
  }

  /** How often `x` occurs in `s`. */
  ghost function Count<T>(s: seq<T>, x: T): nat {
    if s == [] then 0 else (if s[0] == x then 1 else 0) + Count(s[1..], x)
  }

  lemma {:induction false} CountConcat<T>(a: seq<T>, b: seq<T>, x: T)
    ensures Count(a + b, x) == Count(a, x) + Count(b, x)
  {
    if a == [] {
      assert a + b == b;
    } else {
      assert (a + b)[0] == a[0];
      assert (a + b)[1..] == a[1..] + b;
      CountConcat(a[1..], b, x);
    }
  }

  lemma {:induction false} CountIsMultiplicity<T>(s: seq<T>, x: T)
    ensures Count(s, x) == multiset(s)[x]
  {
    if s != [] {
      CountIsMultiplicity(s[1..], x);
      assert s == [s[0]] + s[1..];
      assert multiset(s) == multiset{s[0]} + multiset(s[1..]);
    }
  }

  /** An element occurs in the two filters together as often as in the
      input. */
  lemma {:induction false} FilterCountsAt<T>(s: seq<T>, f: T -> bool, g: T -> bool, x: T)
    requires forall y :: g(y) == !f(y)
    ensures Count(Filter(s, f), x) + Count(Filter(s, g), x) == Count(s, x)
  {
    if s != [] {
      var h, t := s[0], s[1..];
      FilterCountsAt(t, f, g, x);
      FilterUnfold(s, f);
      FilterUnfold(s, g);
      CountConcat(if f(h) then [h] else [], Filter(t, f), x);
      CountConcat(if g(h) then [h] else [], Filter(t, g), x);
      assert g(h) == !f(h);
      assert Count([h], x) == if h == x then 1 else 0;
    }
  }

  lemma MultisetSum<T>(a: multiset<T>, b: multiset<T>, c: multiset<T>)
    requires forall x :: a[x] + b[x] == c[x]
    ensures a + b == c
  {
    assert forall x :: (a + b)[x] == c[x];
  }

  lemma FilterCounts<T>(s: seq<T>, f: T -> bool, g: T -> bool)
    requires forall x :: g(x) == !f(x)
    ensures multiset(Filter(s, f)) + multiset(Filter(s, g)) == multiset(s)
  {
    var a, b, c := multiset(Filter(s, f)), multiset(Filter(s, g)), multiset(s);
    forall x ensures a[x] + b[x] == c[x] {
      FilterCountsAt(s, f, g, x);
      CountIsMultiplicity(Filter(s, f), x);
      CountIsMultiplicity(Filter(s, g), x);
      CountIsMultiplicity(s, x);
    }
    MultisetSum(a, b, c);
  }

  /** A filter and the filter by the negation split the input: every element
      lands in exactly one of them, as often as it occurs. */
  lemma FilterSplit<T>(s: seq<T>, f: T -> bool, g: T -> bool)
    requires forall x :: g(x) == !f(x)
    ensures multiset(Filter(s, f)) + multiset(Filter(s, g)) == multiset(s)
    ensures forall x :: !(x in Filter(s, f) && x in Filter(s, g))
  {
    FilterCounts(s, f, g);
    forall x | x in Filter(s, f) ensures x !in Filter(s, g) {
      assert f(x) && g(x) == !f(x);
    }
  }
}
