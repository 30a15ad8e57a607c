/** Optional values, for the `None` that the Python services use for "no reading". */
module Options {

  datatype Option<+T> = None | Some(value: T)

  /** Applies `f` to a present value and keeps `None` as `None`. */
  function MapOption<T, U>(o: Option<T>, f: T -> U): (r: Option<U>)
    ensures r.Some? <==> o.Some?
    ensures o.Some? ==> r.value == f(o.value)
  {
    match o
    case None => None
    case Some(v) => Some(f(v))
  }

  /** The values carried by the present entries, in order: `[v for v in xs if v is not None]`. */
  function Present<T>(xs: seq<Option<T>>): (r: seq<T>)
    ensures |r| <= |xs|
  {
    if xs == [] then []
    else (if xs[0].Some? then [xs[0].value] else []) + Present(xs[1..])
  }

  /** Every kept value comes from a present entry, and every present entry's value is kept. */
  lemma {:induction false} PresentMembers<T>(xs: seq<Option<T>>)
    ensures forall j :: 0 <= j < |Present(xs)| ==> Some(Present(xs)[j]) in xs
    ensures forall i :: 0 <= i < |xs| && xs[i].Some? ==> xs[i].value in Present(xs)
  {
    if xs != [] {
      PresentMembers(xs[1..]);
      var head := if xs[0].Some? then [xs[0].value] else [];
      assert Present(xs) == head + Present(xs[1..]);
      forall j | 0 <= j < |Present(xs)|
        ensures Some(Present(xs)[j]) in xs
      {
        if j >= |head| {
          assert Present(xs)[j] == Present(xs[1..])[j - |head|];
          assert Some(Present(xs)[j]) in xs[1..];
        }
      }
      forall i | 0 <= i < |xs| && xs[i].Some?
        ensures xs[i].value in Present(xs)
      {
        if i > 0 {
          assert xs[i] == xs[1..][i - 1];
        }
      }
    }
  }

  /** A sequence of `None` entries keeps nothing. */
  lemma {:induction false} PresentOfNone<T>(xs: seq<Option<T>>)
    requires forall i :: 0 <= i < |xs| ==> xs[i].None?
    ensures Present(xs) == []
  {
    if xs != [] {
      PresentOfNone(xs[1..]);
    }
  }

  /** One unfolding of `Present`. */
  lemma PresentCons<T>(xs: seq<Option<T>>)
    requires xs != []
    ensures Present(xs) == (if xs[0].Some? then [xs[0].value] else []) + Present(xs[1..])
  {
  }

  /** The present entries themselves, still wrapped, in order. */
  function KeepPresent<T>(xs: seq<Option<T>>): (r: seq<Option<T>>)
    ensures forall i :: 0 <= i < |r| ==> r[i].Some?
  {
    if xs == [] then []
    else (if xs[0].Some? then [xs[0]] else []) + KeepPresent(xs[1..])
  }

  /** Filtering out the `None` entries loses no value and adds none. */
  lemma {:induction false} PresentOfKeepPresent<T>(xs: seq<Option<T>>)
    ensures Present(KeepPresent(xs)) == Present(xs)
    ensures |KeepPresent(xs)| == |Present(xs)|
  {
    if xs != [] {
      PresentOfKeepPresent(xs[1..]);
      var head := if xs[0].Some? then [xs[0]] else [];
      PresentAppend(head, KeepPresent(xs[1..]));
    }
  }

  /** `Present` distributes over concatenation. */
  lemma {:induction false} PresentAppend<T>(xs: seq<Option<T>>, ys: seq<Option<T>>)
    ensures Present(xs + ys) == Present(xs) + Present(ys)
  {
    if xs != [] {
      assert (xs + ys)[1..] == xs[1..] + ys;
      PresentAppend(xs[1..], ys);
    } else {
      assert xs + ys == ys;
    }
  }

  /** A sequence with no `None` entry keeps all of its values. */
  lemma {:induction false} PresentOfAllSome<T>(xs: seq<Option<T>>)
    requires forall i :: 0 <= i < |xs| ==> xs[i].Some?
    ensures |Present(xs)| == |xs|
    ensures forall i :: 0 <= i < |xs| ==> Present(xs)[i] == xs[i].value
  {
    if xs != [] {
      PresentOfAllSome(xs[1..]);
    }
  }
}
