/**
 * The random source and the failures of one generation call.
 *
 * The generator draws every random choice from one shared pseudo-random source
 * (`r.Intn(n)`, main.go:13-14). Here that source is a caller-supplied stream of
 * draws: the i-th call of `r.Intn(n)` made during a generation is answered with
 * index `rand(i) % n` (`Reduce`), which is `rand(i)` itself whenever the stream already holds
 * an index below `n`. Every operation takes the position of its first draw and
 * returns the position of the next unused draw, so the draws are consumed in the
 * order the source consumes them.
 */
module Randomness {

  /** An infinite stream of draws: `rand(i)` answers the i-th call of `Intn`. */
  type Rand = nat -> nat

  /** The attribute category whose eligible list was found empty. */
  datatype Category = EthicDraw | AuthorityDraw | CivicDraw | OriginDraw | TraitDraw

  /**
   * Named failures. The source indexes an empty slice (a run-time panic) where
   * the model reports `EmptyEligibleSet`, and it retries forever where the model
   * gives up with `DidNotConverge` after a bounded number of attempts.
   */
  datatype Error = EmptyEligibleSet(category: Category) | DidNotConverge

  datatype Result<+T> = Ok(value: T) | Err(error: Error)

  /**
   * `xs[r.Intn(len(xs))]`: the element at the drawn index. Every element of
   * `xs` can be picked, and a draw already below `|xs|` picks exactly that index.
   */
  function Pick<T>(xs: seq<T>, draw: nat): (x: T)
    requires xs != []
    ensures x in xs
    ensures draw < |xs| ==> x == xs[draw]
  {
    xs[Reduce(draw, |xs|)]
  }

  /**
   * `draw` reduced below `n` by repeated subtraction, which is `draw % n`
   * (ReduceIsMod); the recursive form keeps division out of the proofs that
   * only need the bound.
   */
  function Reduce(draw: nat, n: nat): (i: nat)
    requires n > 0
    ensures i < n
    ensures draw < n ==> i == draw
  {
    if draw < n then draw else Reduce(draw - n, n)
  }

  lemma {:induction false} ReduceIsMod(draw: nat, n: nat)
    requires n > 0
    ensures Reduce(draw, n) == draw % n
    decreases draw
  {
    if draw >= n {
      ReduceIsMod(draw - n, n);
      var q := (draw - n) / n;
      var r := (draw - n) % n;
      assert draw == n * (q + 1) + r;
      ModOfSum(n, q + 1, r);
    }
  }

  /** The remainder of `n * q + r` by `n` is `r` whenever `r` is below `n`. */
  lemma ModOfSum(n: nat, q: nat, r: nat)
    requires 0 <= r < n
    ensures (n * q + r) % n == r
  {
    var a := n * q + r;
    var q', r' := a / n, a % n;
    assert a == n * q' + r' && 0 <= r' < n;
    MulStep(n, q', q);
    MulStep(n, q, q');
  }

  /** Below a larger multiple of `n` there is room for a whole step of `n`. */
  lemma MulStep(n: nat, x: int, y: int)
    ensures x < y ==> n * x + n <= n * y
  {
    if x < y {
      var d := y - x - 1;
      assert n * y == n * x + n + n * d;
      assert n * d >= 0;
    }
  }
}
