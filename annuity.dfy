/** The amortising-loan annuity: the level monthly payment that repays a loan
    with compound monthly interest in a fixed number of payments. */
module Annuity {

  /** `x ** n` for a whole exponent; a base above one raised to a positive
      power stays above one. */
  function Pow(x: real, n: nat): (r: real)
    ensures x > 1.0 && n >= 1 ==> r > 1.0
  {
    if n == 0 then 1.0 else x * Pow(x, n - 1)
  }

  /** The payment formula of the calculator: with a positive loan and a
      positive monthly rate, `loan * (r * (1+r)^n) / ((1+r)^n - 1)`, and
      otherwise nothing owed. The denominator is positive because
      `(1+r)^n > 1` when `r > 0` and `n >= 1`. */
  function MonthlyPayment(loan: real, rate: real, n: nat): (p: real)
    requires n >= 1
    ensures (loan > 0.0 && rate > 0.0) ==> p > 0.0
    ensures !(loan > 0.0 && rate > 0.0) ==> p == 0.0
  {
    if loan > 0.0 && rate > 0.0 then
      var q := Pow(1.0 + rate, n);
      loan * (rate * q) / (q - 1.0)
    else
      0.0
  }

  /** What is still owed after `k` monthly payments of `payment`: each month
      the balance earns interest at `rate` and then one payment is made. */
  function Balance(loan: real, rate: real, payment: real, k: nat): real
  {
    if k == 0 then loan else Balance(loan, rate, payment, k - 1) * (1.0 + rate) - payment
  }

  /** The closed form of the balance, scaled by the rate, for balance `b`
      and power `q = (1+r)^k`: `b * r == L * q * r - P * (q - 1)`. */
  ghost predicate ClosedForm(loan: real, rate: real, payment: real, b: real, q: real) {
    b * rate == loan * q * rate - payment * (q - 1.0)
  }

  /** One month of the closed form: if it holds for balance `b` against
      power `q`, it holds for the next balance `b'` against `q' = (1+r) * q`. */
  lemma ClosedFormStep(loan: real, rate: real, payment: real, b: real, q: real, b': real, q': real)
    requires ClosedForm(loan, rate, payment, b, q)
    requires b' == b * (1.0 + rate) - payment && q' == (1.0 + rate) * q
    ensures ClosedForm(loan, rate, payment, b', q')
  {
    assert b' * rate == (b * rate) * (1.0 + rate) - payment * rate;
  }

  /** The closed form holds after every number of months. */
  lemma {:induction false} BalanceClosedForm(loan: real, rate: real, payment: real, k: nat)
    ensures ClosedForm(loan, rate, payment, Balance(loan, rate, payment, k), Pow(1.0 + rate, k))
  {
    if k > 0 {
      BalanceClosedForm(loan, rate, payment, k - 1);
      ClosedFormStep(loan, rate, payment, Balance(loan, rate, payment, k - 1), Pow(1.0 + rate, k - 1),
                     Balance(loan, rate, payment, k), Pow(1.0 + rate, k));
    }
  }

  /** The equation the payment solves: `P * (q - 1) == L * r * q` with
      `q = (1+r)^n > 1`. */
  lemma PaymentEquation(loan: real, rate: real, n: nat)
    requires loan > 0.0 && rate > 0.0 && n >= 1
    ensures Pow(1.0 + rate, n) > 1.0
    ensures MonthlyPayment(loan, rate, n) * (Pow(1.0 + rate, n) - 1.0) == loan * rate * Pow(1.0 + rate, n)
  {
  }

  /** The formula's payment repays the loan exactly: after `n` payments
      nothing is owed. */
  lemma PaymentRepaysLoan(loan: real, rate: real, n: nat)
    requires loan > 0.0 && rate > 0.0 && n >= 1
    ensures Balance(loan, rate, MonthlyPayment(loan, rate, n), n) == 0.0
  {
    var p := MonthlyPayment(loan, rate, n);
    PaymentEquation(loan, rate, n);
    BalanceClosedForm(loan, rate, p, n);
    assert Balance(loan, rate, p, n) * rate == 0.0;
  }

  /** `a * x >= a * y` for `a >= 0` and `x >= y`. */
  lemma MulMonotone(a: real, x: real, y: real)
    requires a >= 0.0 && x >= y
    ensures a * x >= a * y
  {
  }

  /** A strict inequality between products with a common positive factor
      holds between the other factors. */
  lemma CancelPositive(a: real, b: real, c: real)
    requires c > 0.0 && a * c < b * c
    ensures a < b
  {
  }

  /** `(1+r)^n - 1 < n * r * (1+r)^n` for `r > 0` and `n >= 1`: the growth
      over `n` months is less than `n` months of interest on the final amount. */
  lemma {:induction false} PowGrowthBound(rate: real, n: nat)
    requires rate > 0.0 && n >= 1
    ensures Pow(1.0 + rate, n) - 1.0 < rate * (n as real) * Pow(1.0 + rate, n)
  {
    var q := Pow(1.0 + rate, n - 1);
    assert Pow(1.0 + rate, n) == (1.0 + rate) * q;
    if n == 1 {
      assert q == 1.0;
    } else {
      PowGrowthBound(rate, n - 1);
      var m := (n - 1) as real;
      assert n as real == m + 1.0;
      // (1+r) q - 1 = (q - 1) + r q < r m q + r q = r n q <= r n (1+r) q
      assert (1.0 + rate) * q - 1.0 == (q - 1.0) + rate * q;
      assert q - 1.0 < rate * m * q;
      assert rate * m * q + rate * q == rate * (m + 1.0) * q;
      var rnq := rate * (m + 1.0) * q;
      assert rnq > 0.0;
      MulMonotone(rnq, 1.0 + rate, 1.0);
      assert rate * (m + 1.0) * ((1.0 + rate) * q) == rnq * (1.0 + rate);
      assert (1.0 + rate) * q - 1.0 < rnq;
      assert rnq <= rate * (n as real) * ((1.0 + rate) * q);
    }
  }

  /** The payment covers more than the interest of the first month, and the
      `n` payments together repay more than the principal. */
  lemma PaymentExceedsInterestAndPrincipal(loan: real, rate: real, n: nat)
    requires loan > 0.0 && rate > 0.0 && n >= 1
    ensures MonthlyPayment(loan, rate, n) > loan * rate
    ensures MonthlyPayment(loan, rate, n) * (n as real) > loan
  {
    var p := MonthlyPayment(loan, rate, n);
    var q := Pow(1.0 + rate, n);
    PaymentEquation(loan, rate, n);
    var lr := loan * rate;
    assert lr > 0.0;
    assert p * (q - 1.0) == lr * q;
    assert (p - lr) * (q - 1.0) == lr;
    assert p > lr;
    PowGrowthBound(rate, n);
    var nr := n as real;
    var c := rate * q;
    assert c > 0.0;
    var growth := q - 1.0;
    assert growth < nr * c;
    assert p * growth < p * (nr * c);
    assert loan * c == p * growth;
    assert p * (nr * c) == (p * nr) * c;
    CancelPositive(loan, p * nr, c);
  }
}
