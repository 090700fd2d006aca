/** The box constraint of adam_optimize (ceviche/optimizers.py:48-50): two
    masked assignments on the parameter array, first every component below the
    lower bound is set to it, then every component above the upper bound. */
module BoxConstraint {

  /** The `bounds` argument: None, or a (low, high) pair. */
  datatype Bounds = Unconstrained | Between(lo: real, hi: real)

  /** rho[rho < lo] = lo, as a value */
  function RaiseTo(rho: seq<real>, lo: real): (r: seq<real>)
    ensures |r| == |rho|
    ensures forall k :: 0 <= k < |rho| ==> r[k] >= lo && (rho[k] >= lo ==> r[k] == rho[k])
    ensures forall k :: 0 <= k < |rho| && rho[k] < lo ==> r[k] == lo
  {
    seq(|rho|, k requires 0 <= k < |rho| => if rho[k] < lo then lo else rho[k])
  }

  /** rho[rho > hi] = hi, as a value */
  function LowerTo(rho: seq<real>, hi: real): (r: seq<real>)
    ensures |r| == |rho|
    ensures forall k :: 0 <= k < |rho| ==> r[k] <= hi && (rho[k] <= hi ==> r[k] == rho[k])
    ensures forall k :: 0 <= k < |rho| && rho[k] > hi ==> r[k] == hi
  {
    seq(|rho|, k requires 0 <= k < |rho| => if rho[k] > hi then hi else rho[k])
  }

  /** Both masked assignments in source order. With lo <= hi every component
      ends in [lo, hi] and components already there are untouched; with
      lo > hi the second assignment wins and every component becomes hi. */
  function Clamp(rho: seq<real>, lo: real, hi: real): (r: seq<real>)
    ensures |r| == |rho|
    ensures lo <= hi ==> forall k :: 0 <= k < |r| ==> lo <= r[k] <= hi
    ensures forall k :: 0 <= k < |rho| && lo <= rho[k] <= hi ==> r[k] == rho[k]
    ensures lo <= hi ==> forall k :: 0 <= k < |rho| && rho[k] < lo ==> r[k] == lo
    ensures forall k :: 0 <= k < |rho| && rho[k] > hi ==> r[k] == hi
    ensures hi < lo ==> forall k :: 0 <= k < |r| ==> r[k] == hi
  {
    LowerTo(RaiseTo(rho, lo), hi)
  }

  /** What the driver does with its `bounds` argument after each update. */
  function Constrain(rho: seq<real>, bounds: Bounds): (r: seq<real>)
    ensures |r| == |rho|
    ensures bounds.Between? && bounds.lo <= bounds.hi ==>
      forall k :: 0 <= k < |r| ==> bounds.lo <= r[k] <= bounds.hi
    ensures bounds.Unconstrained? ==> r == rho
    ensures bounds.Between? ==> r == Clamp(rho, bounds.lo, bounds.hi)
  {
    match bounds
    case Unconstrained => rho
    case Between(lo, hi) => Clamp(rho, lo, hi)
  }

  /** Clamping twice is clamping once, whatever the order of lo and hi. */
  lemma ClampIdempotent(rho: seq<real>, lo: real, hi: real)
    ensures Clamp(Clamp(rho, lo, hi), lo, hi) == Clamp(rho, lo, hi)
  {
    var once := Clamp(rho, lo, hi);
    forall k | 0 <= k < |rho| ensures Clamp(once, lo, hi)[k] == once[k] {
      var r := RaiseTo(once, lo);
      assert r[k] == (if once[k] < lo then lo else once[k]);
    }
  }

  /** rho[rho < lo] = lo, in place */
  method RaiseToInPlace(a: array<real>, lo: real)
    modifies a
    ensures a[..] == RaiseTo(old(a[..]), lo)
  {
    var i := 0;
    while i < a.Length
      invariant 0 <= i <= a.Length
      invariant forall k :: 0 <= k < i ==> a[k] == (if old(a[k]) < lo then lo else old(a[k]))
      invariant forall k :: i <= k < a.Length ==> a[k] == old(a[k])
    {
      if a[i] < lo {
        a[i] := lo;
      }
      i := i + 1;
    }
  }

  /** rho[rho > hi] = hi, in place */
  method LowerToInPlace(a: array<real>, hi: real)
    modifies a
    ensures a[..] == LowerTo(old(a[..]), hi)
  {
    var i := 0;
    while i < a.Length
      invariant 0 <= i <= a.Length
      invariant forall k :: 0 <= k < i ==> a[k] == (if old(a[k]) > hi then hi else old(a[k]))
      invariant forall k :: i <= k < a.Length ==> a[k] == old(a[k])
    {
      if a[i] > hi {
        a[i] := hi;
      }
      i := i + 1;
    }
  }

  /** Lines 48-50: both masked assignments, in place. */
  method ClampInPlace(a: array<real>, lo: real, hi: real)
    modifies a
    ensures a[..] == Clamp(old(a[..]), lo, hi)
  {
    RaiseToInPlace(a, lo);
    LowerToInPlace(a, hi);
  }
}
