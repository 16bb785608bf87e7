/**
 * Proxy selection: turning a uniform draw into an index of the proxy list.
 *
 * The draw `u` is the value of the platform's uniform generator, in [0, 1).
 * mathjs `random(min, max)` returns `min + u * (max - min)`, a number in
 * [min, max), and the selection floors it.
 */
module ProxyPool {

  /**
   * `random(0, max)`: the draw scaled to [0, max), computed as `max` additions
   * of the draw so that each step stays linear; `RandomIsProduct` shows it is
   * `u * max`.
   */
  function Random(u: real, max: nat): (x: real)
    requires 0.0 <= u < 1.0
    ensures 0.0 <= x <= max as real
    ensures max > 0 ==> x < max as real
  {
    if max == 0 then 0.0 else Random(u, max - 1) + u
  }

  /** The scaled draw is the product `u * max` that mathjs computes. */
  lemma {:induction false} RandomIsProduct(u: real, max: nat)
    requires 0.0 <= u < 1.0
    ensures Random(u, max) == u * max as real
  {
    if max > 0 {
      RandomIsProduct(u, max - 1);
      assert u * max as real == u * (max - 1) as real + u;
    }
  }

  /**
   * The index getRandomProxy computes, as written: `floor(random(0, len - 1))`.
   * It is always in bounds.
   */
  function ProxyIndexAsWritten(len: nat, u: real): (i: int)
    requires len > 0 && 0.0 <= u < 1.0
    ensures 0 <= i < len
  {
    Random(u, len - 1).Floor
  }

  /**
   * As written, with two or more proxies the last one is never drawn: the
   * range of the draw excludes `len - 1`.
   */
  lemma ProxyIndexAsWrittenSkipsLast(len: nat, u: real)
    requires len >= 2 && 0.0 <= u < 1.0
    ensures ProxyIndexAsWritten(len, u) < len - 1
  {
    var x := Random(u, len - 1);
    assert x.Floor as real <= x;
  }

  /** With two proxies, as written, every draw picks the first one. */
  lemma ProxyIndexAsWrittenTwo(u: real)
    requires 0.0 <= u < 1.0
    ensures ProxyIndexAsWritten(2, u) == 0
  {
    ProxyIndexAsWrittenSkipsLast(2, u);
  }

  /** The intended selection: `floor(random(0, len))`, in bounds. */
  function ProxyIndex(len: nat, u: real): (i: int)
    requires len > 0 && 0.0 <= u < 1.0
    ensures 0 <= i < len
  {
    Random(u, len).Floor
  }

  /** Every proxy can be drawn by the intended selection: the draw k/len picks index k. */
  lemma ProxyIndexReachesEvery(len: nat, k: nat)
    requires k < len
    ensures 0.0 <= k as real / len as real < 1.0
    ensures ProxyIndex(len, k as real / len as real) == k
  {
    var u := k as real / len as real;
    assert u * len as real == k as real;
    assert u < 1.0 by {
      assert (1.0 - u) * len as real == (len - k) as real;
    }
    RandomIsProduct(u, len);
  }
}
