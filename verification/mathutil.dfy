/** Numeric helpers of src/core/utils/math.js. */
module MathUtil {

  function Min(a: real, b: real): real {
    if a <= b then a else b
  }

  function Max(a: real, b: real): real {
    if a >= b then a else b
  }

  /** `Math.min(Math.max(value, lo), hi)`. */
  function Clamp(v: real, lo: real, hi: real): (r: real)
    ensures lo <= hi ==> lo <= r <= hi
    ensures lo <= v <= hi ==> r == v
    ensures v < lo && lo <= hi ==> r == lo
    ensures hi < v ==> r == hi
  {
    Min(Max(v, lo), hi)
  }

  /** Clamping twice is clamping once, whatever the bounds. */
  lemma ClampIdempotent(v: real, lo: real, hi: real)
    ensures Clamp(Clamp(v, lo, hi), lo, hi) == Clamp(v, lo, hi)
  {
  }

  /** `values.reduce((acc, value) => acc + value, 0)`: a left fold. */
  function Sum(values: seq<real>): (r: real)
    ensures |values| == 0 ==> r == 0.0
    ensures (forall i :: 0 <= i < |values| ==> values[i] >= 0.0) ==> r >= 0.0
    ensures (forall i :: 0 <= i < |values| ==> values[i] >= 0.0) ==> forall i :: 0 <= i < |values| ==> values[i] <= r
    decreases |values|
  {
    if |values| == 0 then 0.0 else Sum(values[..|values| - 1]) + values[|values| - 1]
  }

  /** The fold splits over concatenation. */
  lemma {:induction false} SumConcat(a: seq<real>, b: seq<real>)
    ensures Sum(a + b) == Sum(a) + Sum(b)
    decreases |b|
  {
    if |b| == 0 {
      assert a + b == a;
    } else {
      var init := b[..|b| - 1];
      assert (a + b)[..|a + b| - 1] == a + init;
      SumConcat(a, init);
    }
  }

  /** The empty sum is 0 and appending adds the new value. */
  lemma SumSnoc(values: seq<real>, x: real)
    ensures Sum([]) == 0.0
    ensures Sum(values + [x]) == Sum(values) + x
  {
    SumConcat(values, [x]);
    assert [x][..0] == [];
  }
}
