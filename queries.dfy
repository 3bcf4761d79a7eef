/** The three LINQ operators the lookups of the flight information service
    rely on. `Where` and `Any` are reference definitions; `SingleOrDefault`
    follows the operator's own strategy (find the first match, then look for
    a second one in the rest) and is proved against `Where`. */
module Queries {
  import opened Common

  /** Thrown by `SingleOrDefault` when the sequence holds more than one match. */
  datatype QueryError = MoreThanOneMatch

  /** The elements of `xs` that satisfy `p`, in their original order. */
  function Where<T>(xs: seq<T>, p: T -> bool): (r: seq<T>)
    ensures |r| <= |xs|
    ensures forall k :: 0 <= k < |r| ==> r[k] in xs && p(r[k])
    ensures forall k :: 0 <= k < |xs| && p(xs[k]) ==> xs[k] in r
    decreases |xs|
  {
    if xs == [] then []
    else if p(xs[0]) then [xs[0]] + Where(xs[1..], p)
    else Where(xs[1..], p)
  }

  /** Whether some element of `xs` satisfies `p`. */
  function Any<T>(xs: seq<T>, p: T -> bool): (b: bool)
    ensures b <==> Where(xs, p) != []
    decreases |xs|
  {
    if xs == [] then false else p(xs[0]) || Any(xs[1..], p)
  }

  /** `xs.SingleOrDefault(p)`: the one element satisfying `p`, `None` (the
      default, null) when there is none, and an exception when there are
      two or more. */
  function SingleOrDefault<T>(xs: seq<T>, p: T -> bool): (r: Result<Option<T>, QueryError>)
    ensures r == Success(None) <==> Where(xs, p) == []
    ensures r.Success? && r.value.Some? <==> |Where(xs, p)| == 1
    ensures r.Success? && r.value.Some? ==> Where(xs, p) == [r.value.value]
    ensures r.Failure? <==> |Where(xs, p)| >= 2
    decreases |xs|
  {
    if xs == [] then Success(None)
    else if p(xs[0]) then
      if Any(xs[1..], p) then Failure(MoreThanOneMatch) else Success(Some(xs[0]))
    else SingleOrDefault(xs[1..], p)
  }

  /** When `xs[i]` is the only position whose element satisfies `p`, the
      matches are exactly that element. */
  lemma {:induction false} WhereOfUniqueMatch<T>(xs: seq<T>, p: T -> bool, i: nat)
    requires i < |xs| && p(xs[i])
    requires forall j :: 0 <= j < |xs| && j != i ==> !p(xs[j])
    ensures Where(xs, p) == [xs[i]]
    decreases |xs|
  {
    if i == 0 {
      WhereOfNoMatch(xs[1..], p);
    } else {
      assert !p(xs[0]);
      WhereOfUniqueMatch(xs[1..], p, i - 1);
    }
  }

  /** With no position satisfying `p`, there are no matches. */
  lemma {:induction false} WhereOfNoMatch<T>(xs: seq<T>, p: T -> bool)
    requires forall j :: 0 <= j < |xs| ==> !p(xs[j])
    ensures Where(xs, p) == []
    decreases |xs|
  {
    if xs != [] {
      assert !p(xs[0]);
      WhereOfNoMatch(xs[1..], p);
    }
  }

  /** A lookup by a key that no two positions share finds every element:
      `SingleOrDefault` returns `xs[i]` for the key of `xs[i]`. */
  lemma UniqueKeyLookupFinds<T>(xs: seq<T>, p: T -> bool, i: nat)
    requires i < |xs| && p(xs[i])
    requires forall j :: 0 <= j < |xs| && j != i ==> !p(xs[j])
    ensures SingleOrDefault(xs, p) == Success(Some(xs[i]))
  {
    WhereOfUniqueMatch(xs, p, i);
  }
}
