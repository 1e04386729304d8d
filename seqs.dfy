// First-match scans over lists, the shape of every `stream().filter(..).findFirst()`
// in the gateway.
module Seqs {
  import opened Wrappers

  /** The position of the first element satisfying `p`. */
  function FirstWhere<T>(xs: seq<T>, p: T -> bool): (r: Option<nat>)
    ensures r.Some? ==> r.value < |xs| && p(xs[r.value]) &&
                        forall j :: 0 <= j < r.value ==> !p(xs[j])
    ensures r.None? ==> forall j :: 0 <= j < |xs| ==> !p(xs[j])
  {
    if |xs| == 0 then None
    else if p(xs[0]) then Some(0)
    else match FirstWhere(xs[1..], p)
      case None => None
      case Some(i) => Some(i + 1)
  }

  /** A match in the first part of a concatenation is the match of the
   *  whole: the second part is never looked at. */
  lemma FirstWhereAppend<T>(a: seq<T>, b: seq<T>, p: T -> bool)
    requires FirstWhere(a, p).Some?
    ensures FirstWhere(a + b, p) == FirstWhere(a, p)
  {
    var i := FirstWhere(a, p).value;
    assert (a + b)[i] == a[i];
    assert forall j :: 0 <= j <= i ==> (a + b)[j] == a[j];
  }

  /** The first element satisfying `p`, if any. */
  function FindFirst<T>(xs: seq<T>, p: T -> bool): (r: Option<T>)
    ensures r.Some? <==> exists j :: 0 <= j < |xs| && p(xs[j])
    ensures r.Some? ==> r.value in xs && p(r.value)
  {
    match FirstWhere(xs, p)
    case None => None
    case Some(i) => Some(xs[i])
  }

  /** A scan over a concatenation finds a match in the first part if there
   *  is one, and only otherwise looks at the second part. */
  lemma FindFirstSkip<T>(xs: seq<T>, p: T -> bool)
    requires |xs| > 0 && !p(xs[0])
    ensures FindFirst(xs, p) == FindFirst(xs[1..], p)
  {
  }

  lemma {:induction false} FindFirstAppend<T>(a: seq<T>, b: seq<T>, p: T -> bool)
    ensures FindFirst(a + b, p) == (if FindFirst(a, p).Some? then FindFirst(a, p) else FindFirst(b, p))
  {
    if |a| == 0 {
      assert a + b == b;
    } else if !p(a[0]) {
      assert (a + b)[0] == a[0];
      assert (a + b)[1..] == a[1..] + b;
      FindFirstSkip(a + b, p);
      FindFirstSkip(a, p);
      FindFirstAppend(a[1..], b, p);
    } else {
      assert (a + b)[0] == a[0];
    }
  }
}
