/** The optional value used throughout the model for JavaScript's `null` and `undefined`. */
module Wrappers {

  datatype Option<+T> = None | Some(value: T) {

    /** The value if there is one, otherwise `default`: JavaScript's `x || default` on a present, truthy x. */
    function GetOr(default: T): T {
      match this
      case Some(v) => v
      case None => default
    }
  }

  /** Position of the first present value from k on. */
  function FirstSome<T>(xs: seq<Option<T>>, k: nat): (r: Option<nat>)
    ensures r.Some? ==> k <= r.value < |xs| && xs[r.value].Some?
    ensures r.Some? ==> forall j :: k <= j < r.value ==> xs[j].None?
    ensures r.None? <==> forall j :: k <= j < |xs| ==> xs[j].None?
    decreases |xs| - k
  {
    if k >= |xs| then None
    else if xs[k].Some? then Some(k)
    else FirstSome(xs, k + 1)
  }

  /** Position of the first true flag from k on. */
  function FirstTrue(bs: seq<bool>, k: nat): (r: Option<nat>)
    ensures r.Some? ==> k <= r.value < |bs| && bs[r.value]
    ensures r.Some? ==> forall j :: k <= j < r.value ==> !bs[j]
    ensures r.None? <==> forall j :: k <= j < |bs| ==> !bs[j]
    decreases |bs| - k
  {
    if k >= |bs| then None
    else if bs[k] then Some(k)
    else FirstTrue(bs, k + 1)
  }
}
