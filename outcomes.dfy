/** Optional values and the all-or-nothing mapping used wherever the lookup
    code processes a list and one element can abort the whole list. */
module Outcomes {

  datatype Option<T> = None | Some(value: T)

  /** Applies `f` to every element in order; the whole result is `None` as
      soon as one element yields `None`. */
  function MapAll<A, B>(f: A -> Option<B>, xs: seq<A>): Option<seq<B>>
  {
    if xs == [] then Some([])
    else
      match MapAll(f, xs[..|xs| - 1])
      case None => None
      case Some(ys) =>
        match f(xs[|xs| - 1])
        case None => None
        case Some(y) => Some(ys + [y])
  }

  /** `MapAll` fails exactly when some element fails. */
  lemma {:induction false} MapAllFailsIff<A, B>(f: A -> Option<B>, xs: seq<A>)
    ensures MapAll(f, xs).None? <==> exists i :: 0 <= i < |xs| && f(xs[i]).None?
  {
    if xs != [] {
      var init := xs[..|xs| - 1];
      MapAllFailsIff(f, init);
      assert forall i :: 0 <= i < |init| ==> init[i] == xs[i];
    }
  }

  /** When `MapAll` succeeds it holds one output per input, in input order. */
  lemma {:induction false} MapAllPointwise<A, B>(f: A -> Option<B>, xs: seq<A>)
    requires MapAll(f, xs).Some?
    ensures |MapAll(f, xs).value| == |xs|
    ensures forall i :: 0 <= i < |xs| ==> f(xs[i]) == Some(MapAll(f, xs).value[i])
  {
    if xs != [] {
      var init := xs[..|xs| - 1];
      MapAllPointwise(f, init);
      assert forall i :: 0 <= i < |init| ==> init[i] == xs[i];
    }
  }

  /** `MapAll` over one more element extends the previous result. */
  lemma MapAllSnoc<A, B>(f: A -> Option<B>, xs: seq<A>, x: A)
    ensures MapAll(f, xs + [x]) ==
      match MapAll(f, xs)
      case None => None
      case Some(ys) => (match f(x) case None => None case Some(y) => Some(ys + [y]))
  {
  }

  /** `MapAll` over a two-element list. */
  lemma MapAllOfTwo<A, B>(f: A -> Option<B>, a: A, b: A)
    ensures MapAll(f, [a, b]) ==
      if f(a).Some? && f(b).Some? then Some([f(a).value, f(b).value]) else None
  {
    var empty: seq<A> := [];
    assert [a, b][..1] == [a];
    assert [a][..0] == empty;
    assert MapAll(f, empty) == Some([]);
    if f(a).Some? {
      var ys: seq<B> := [];
      assert ys + [f(a).value] == [f(a).value];
      assert MapAll(f, [a]) == Some([f(a).value]);
      if f(b).Some? {
        assert [f(a).value] + [f(b).value] == [f(a).value, f(b).value];
      }
    }
  }
}
