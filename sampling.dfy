/** Thinning the derived points before colouring: `into_iter().step_by(k)`. */
module Sampling {
  import opened Base

  /** `r` holds every `k`-th element of `s` starting with the first, in order:
      `r[i]` is `s[i * k]`, and `r` is as long as `ceil(|s| / k)`, the least
      count whose multiple of `k` reaches `|s|`. */
  predicate IsStride<T(==)>(s: seq<T>, k: nat, r: seq<T>) {
    && |r| * k >= |s|
    && (|r| == 0 || (|r| - 1) * k < |s|)
    && forall i :: 0 <= i < |r| ==> i * k < |s| && r[i] == s[i * k]
  }

  /** The position in the input of the `i`-th element kept when every `k`-th
      is kept: `i * k`. It is named so that its result is known to be a `nat`
      wherever it indexes a sequence; written inline, the product's sign is a
      nonlinear fact the solver has to rediscover at each use. */
  function KeptIndex(i: nat, k: nat): nat {
    i * k
  }

  lemma MulSucc(a: int, k: int)
    ensures (a + 1) * k == a * k + k
  {
  }

  /** Putting the first element in front of the stride of `s[k..]` gives the
      stride of `s`. */
  lemma {:induction false} StrideExtend<T>(s: seq<T>, k: nat, rest: seq<T>)
    requires k >= 1 && |s| > k
    requires IsStride(s[k..], k, rest)
    ensures IsStride(s, k, [s[0]] + rest)
  {
    var r := [s[0]] + rest;
    MulSucc(|rest|, k);
    forall i | 1 <= i < |r|
      ensures i * k < |s| && r[i] == s[i * k]
    {
      MulSucc(i - 1, k);
      assert r[i] == rest[i - 1] == s[k..][(i - 1) * k];
    }
  }

  /** Every `k`-th element starting with the first. */
  function StepBy<T(==)>(s: seq<T>, k: nat): (r: seq<T>)
    requires k >= 1
    ensures IsStride(s, k, r)
    decreases |s|
  {
    if |s| == 0 then []
    else if |s| <= k then [s[0]]
    else
      var rest := StepBy(s[k..], k);
      StrideExtend(s, k, rest);
      [s[0]] + rest
  }

  /** The stride is unique: a sequence with the stride shape is the `StepBy` result. */
  lemma {:induction false} StrideUnique<T>(s: seq<T>, k: nat, r1: seq<T>, r2: seq<T>)
    requires k >= 1 && IsStride(s, k, r1) && IsStride(s, k, r2)
    ensures r1 == r2
  {
  }

  /** The sampling step of a run: a stride of 0 stops the run. */
  function Sample<T(==)>(s: seq<T>, stride: nat): (r: Result<seq<T>>)
    ensures stride == 0 <==> r == Err(ZeroStride)
    ensures r.Ok? ==> IsStride(s, stride, r.value)
  {
    if stride == 0 then Err(ZeroStride) else Ok(StepBy(s, stride))
  }

  /** Ten points with stride 3 keep those at indices 0, 3, 6 and 9. */
  lemma SampleTenByThree<T>(s: seq<T>)
    requires |s| == 10
    ensures Sample(s, 3) == Ok([s[0], s[3], s[6], s[9]])
  {
    var r := StepBy(s, 3);
    assert |r| == 4;
    assert r[0] == s[0] && r[1] == s[3] && r[2] == s[6] && r[3] == s[9];
    assert r == [s[0], s[3], s[6], s[9]];
  }
}
