/** Division by a positive number, rounded down, as clocks are cut into windows and steps. */
module Division {

  lemma Multiple(s: nat, k: int)
    requires k >= 1
    ensures s * k >= s
  {
  }

  /** At most `w` periods apart, at most `w` counters apart. */
  lemma QuotientStep(a: int, b: int, w: int, s: nat)
    requires s >= 1 && a <= b + w * s
    ensures a / s <= b / s + w
  {
    var q, p := a / s, b / s;
    assert a == s * q + a % s && b == s * p + b % s;
    assert s * (q - p - w) == s * q - s * p - w * s;
    if q - p - w >= 1 {
      Multiple(s, q - p - w);
    }
  }

  lemma SameQuotient(t: int, u: int, s: nat)
    requires s >= 1 && t <= u && t / s == u / s
    ensures u - t < s
  {
    assert t == s * (t / s) + t % s && u == s * (u / s) + u % s;
  }

  /** Quotients are monotonic, and grow by at most one in less than a period. */
  lemma LaterQuotient(t: int, u: int, s: nat)
    requires s >= 1 && t <= u
    ensures t / s <= u / s
    ensures u < t + s ==> u / s <= t / s + 1
  {
    QuotientStep(t, u, 0, s);
    if u < t + s {
      QuotientStep(u, t, 1, s);
    }
  }
}
