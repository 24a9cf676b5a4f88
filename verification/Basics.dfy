/** Small value types shared by every other module. */
module Basics {

  /** An optional value: JavaScript `null`/`undefined` and Python `None` become `None`. */
  datatype Option<+T> = None | Some(value: T) {
    /** The value, or `default` when there is none (`x || default`, `d.get(k, default)`). */
    function GetOr(default: T): T {
      if Some? then value else default
    }
  }

  /** JavaScript and Python truthiness of an optional string: present and not empty. */
  predicate Truthy(s: Option<string>) {
    s.Some? && s.value != ""
  }

  /** Index of the first element satisfying `p`, as `Array.prototype.find`
      or SQLAlchemy's `filter_by(...).first()` would pick it. */
  function FirstIndex<T>(s: seq<T>, p: T -> bool): (r: Option<nat>)
    ensures r.Some? ==> r.value < |s| && p(s[r.value])
    ensures r.Some? ==> forall j :: 0 <= j < r.value ==> !p(s[j])
    ensures r.None? ==> forall j :: 0 <= j < |s| ==> !p(s[j])
    decreases |s|
  {
    if s == [] then None
    else if p(s[0]) then Some(0)
    else match FirstIndex(s[1..], p)
      case None => None
      case Some(k) => Some(k + 1)
  }

  /** `array.filter(keep)` and the `if` inside a `for` loop that appends:
      the elements `keep` accepts, in their order. */
  function Filter<T(!new)>(ps: seq<T>, keep: T -> bool): (r: seq<T>)
    ensures forall x :: x in r <==> x in ps && keep(x)
    ensures |r| <= |ps|
    decreases |ps|
  {
    if ps == [] then []
    else
      var last := ps[|ps| - 1];
      Filter(ps[..|ps| - 1], keep) + (if keep(last) then [last] else [])
  }

  /** Filtering a concatenation filters each part: the relative order of the
      kept elements is the order of the source. */
  lemma {:induction false} FilterAppend<T(!new)>(a: seq<T>, b: seq<T>, keep: T -> bool)
    ensures Filter(a + b, keep) == Filter(a, keep) + Filter(b, keep)
    decreases |b|
  {
    if b != [] {
      var init := b[..|b| - 1];
      var last := b[|b| - 1];
      var tail := if keep(last) then [last] else [];
      FilterAppend(a, init, keep);
      assert (a + b)[..|a + b| - 1] == a + init;
      assert (a + b)[|a + b| - 1] == last;
      assert Filter(a + b, keep) == Filter(a + init, keep) + tail;
      assert Filter(b, keep) == Filter(init, keep) + tail;
    } else {
      assert a + b == a;
    }
  }

  /** Filtering an already filtered list changes nothing. */
  lemma {:induction false} FilterIdempotent<T(!new)>(ps: seq<T>, keep: T -> bool)
    ensures Filter(Filter(ps, keep), keep) == Filter(ps, keep)
    decreases |ps|
  {
    if ps != [] {
      var init := ps[..|ps| - 1];
      var last := ps[|ps| - 1];
      var tail := if keep(last) then [last] else [];
      FilterIdempotent(init, keep);
      FilterAppend(Filter(init, keep), tail, keep);
      if keep(last) {
        assert Filter(tail, keep) == Filter([], keep) + [last];
      }
    }
  }
}
