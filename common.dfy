/** Values shared by every module of the model: optional values, the
    Python exceptions the core can raise, and Python's list indexing. */
module Common {

  datatype Option<+T> = None | Some(value: T)

  /** The exceptions of the Python core that the model keeps as results. */
  datatype PyError = KeyError | IndexError | AttributeError

  datatype Result<+T> = Ok(value: T) | Err(error: PyError)

  /** Python's `xs[i]` on a list of length `n`: a negative index counts from
      the end, anything outside `-n .. n-1` raises IndexError (None here). */
  function PyIndex(n: nat, i: int): (r: Option<nat>)
    ensures r.Some? <==> -(n as int) <= i < n
    ensures r.Some? ==> r.value < n && (r.value as int - i) % n == 0
  {
    if 0 <= i < n then Some(i) else if -(n as int) <= i < 0 then Some(i + n) else None
  }

  function Min(a: int, b: int): int { if a <= b then a else b }

  function Max(a: int, b: int): int { if a >= b then a else b }

  /** Quotient and remainder are unique: Euclidean division of `a` by a
      positive `p` gives `q` and `r` whenever `a == q * p + r` with `0 <= r < p`. */
  lemma ModUnique(a: int, p: int, q: int, r: int)
    requires p > 0 && 0 <= r < p && a == q * p + r
    ensures a % p == r && a / p == q
  {
    var q', r' := a / p, a % p;
    if q' < q {
      assert (q - q') * p == r' - r;
      MulAtLeast(q - q', p);
    } else if q' > q {
      assert (q' - q) * p == r - r';
      MulAtLeast(q' - q, p);
    }
  }

  lemma MulAtLeast(k: int, p: int)
    requires k >= 1 && p > 0
    ensures k * p >= p
  {
    assert k * p == (k - 1) * p + p;
  }
}
