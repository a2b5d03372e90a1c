/**
 * Installment arithmetic. Money is an integer number of cents (the two decimal places of every
 * money column); a rate is an exact decimal percentage per month.
 */
module InstallmentPlan {
  import opened Common

  datatype PlanError = InvalidMonths | InvalidPrincipal | InvalidRate

  datatype Plan = Plan(totalAmount: int, totalInterest: int, grandTotal: int, monthlyAmount: int, finalMonthlyAmount: int)

  const MAX_MONTHS := 120

  /** Round to whole cents, halves away from zero. */
  function ToMoney(cents: real): int {
    if cents >= 0.0 then (cents + 0.5).Floor else -((-cents + 0.5).Floor)
  }

  function ComputeFinalMonthlyAmount(grandTotal: int, monthlyAmount: int, months: int): int {
    grandTotal - monthlyAmount * (months - 1)
  }

  function ComputeInstallmentPlan(principal: int, ratePctPerMonth: real, months: int): Result<Plan, PlanError> {
    if months <= 0 then Err(InvalidMonths)
    else if principal <= 0 then Err(InvalidPrincipal)
    else if ratePctPerMonth < 0.0 || ratePctPerMonth > 100.0 then Err(InvalidRate)
    else
      var totalInterest := ToMoney(principal as real * ratePctPerMonth / 100.0 * months as real);
      var grandTotal := principal + totalInterest;
      var monthlyAmount := ToMoney(grandTotal as real / months as real);
      Ok(Plan(principal, totalInterest, grandTotal, monthlyAmount, ComputeFinalMonthlyAmount(grandTotal, monthlyAmount, months)))
  }

  /** The amount due for the payment that follows `paidTerms` earlier ones. */
  function TermAmount(grandTotal: int, monthlyAmount: int, months: int, paidTerms: int): int {
    if paidTerms + 1 >= months then ComputeFinalMonthlyAmount(grandTotal, monthlyAmount, months) else monthlyAmount
  }

  /** The sum of the first `k` payments of a plan. */
  ghost function PaidAfter(grandTotal: int, monthlyAmount: int, months: int, k: nat): int {
    if k == 0 then 0
    else PaidAfter(grandTotal, monthlyAmount, months, k - 1) + TermAmount(grandTotal, monthlyAmount, months, k - 1)
  }

  /** Rounding is half-up: the rounded value is within half a cent, ties going up. */
  lemma ToMoneyIsNearest(x: real)
    requires x >= 0.0
    ensures ToMoney(x) >= 0
    ensures x - 0.5 < ToMoney(x) as real <= x + 0.5
  {
  }

  /** Debts round as credits do: away from zero. */
  lemma ToMoneyIsOdd(x: real)
    ensures ToMoney(-x) == -ToMoney(x)
  {
  }

  lemma RoundedQuotient(g: real, n: real, m: real)
    requires n > 0.0 && g / n - 0.5 < m <= g / n + 0.5
    ensures g - 0.5 * n < n * m <= g + 0.5 * n
  {
    TimesQuotient(g, n);
    Around(g, n, g / n, m);
  }

  lemma TimesQuotient(g: real, n: real)
    requires n > 0.0
    ensures n * (g / n) == g
  {
  }

  /** What lies within half a unit of `q` comes within half of `n` of `n` times `q`. */
  lemma Around(g: real, n: real, q: real, m: real)
    requires n > 0.0 && n * q == g && q - 0.5 < m <= q + 0.5
    ensures g - 0.5 * n < n * m <= g + 0.5 * n
  {
    var d := m - q;
    SplitProduct(g, n, q, d, m);
    BetweenHalves(n, d);
  }

  lemma SplitProduct(g: real, n: real, q: real, d: real, m: real)
    requires n * q == g && q + d == m
    ensures n * m == g + n * d
  {
    Distribute(n, q, d);
  }

  lemma BetweenHalves(n: real, d: real)
    requires n > 0.0 && -0.5 < d <= 0.5
    ensures -(0.5 * n) < n * d <= 0.5 * n
  {
    Scale(n, -0.5, d);
    Scale(n, d, 0.5);
  }

  lemma Scale(n: real, a: real, b: real)
    requires n > 0.0
    ensures a <= b ==> n * a <= n * b
    ensures a < b ==> n * a < n * b
  {
  }

  lemma Distribute(n: real, a: real, b: real)
    ensures n * (a + b) == n * a + n * b
  {
  }

  /** months * monthly differs from the grand total by at most half a cent per term. */
  lemma MonthlyAmountBound(grandTotal: nat, months: nat)
    requires months > 0
    ensures var monthly := ToMoney(grandTotal as real / months as real);
      && monthly >= 0
      && 2 * grandTotal - months < 2 * (months * monthly) <= 2 * grandTotal + months
  {
    var g, n := grandTotal as real, months as real;
    assert g / n >= 0.0;
    var monthly := ToMoney(g / n);
    ToMoneyIsNearest(g / n);
    RoundedQuotient(g, n, monthly as real);
    RealProduct(months, monthly);
    HalfScale(grandTotal, months, months * monthly);
  }

  lemma RealProduct(a: int, b: int)
    ensures a as real * b as real == (a * b) as real
  {
  }

  lemma HalfScale(g: int, n: int, p: int)
    requires g as real - 0.5 * n as real < p as real
    requires p as real <= g as real + 0.5 * n as real
    ensures 2 * g - n < 2 * p <= 2 * g + n
  {
  }

  /** `n` is `x` rounded to a whole number, a half going up. */
  predicate IsNearest(n: int, x: real) {
    x - 0.5 < n as real <= x + 0.5
  }

  /** There is only one such number. */
  lemma NearestIsUnique(m: int, n: int, x: real)
    requires IsNearest(m, x) && IsNearest(n, x)
    ensures m == n
  {
  }

  /** Interest on the principal for every month, in cents: a rate is in per cent a month. */
  function SimpleInterest(principal: int, rate: real, months: int): real {
    principal as real * rate * months as real / 100.0
  }

  lemma InterestForms(principal: int, rate: real, months: int)
    ensures principal as real * rate / 100.0 * months as real == SimpleInterest(principal, rate, months)
  {
    MovePercent(principal as real * rate, months as real);
  }

  lemma MovePercent(a: real, m: real)
    ensures a / 100.0 * m == a * m / 100.0
  {
  }

  /** The interest is that of all the months together, and a term an equal share of the total, each rounded once. */
  predicate IsPriced(plan: Plan, principal: int, rate: real, months: int)
    requires months > 0
  {
    && IsNearest(plan.totalInterest, SimpleInterest(principal, rate, months))
    && IsNearest(plan.monthlyAmount, plan.grandTotal as real / months as real)
  }

  /** Interest is not negative, the total covers the principal, and the terms make up the total. */
  predicate AddsUp(plan: Plan, principal: int, months: int) {
    && plan.totalAmount == principal && plan.totalInterest >= 0
    && plan.grandTotal == plan.totalAmount + plan.totalInterest
    && plan.monthlyAmount >= 0
    && plan.monthlyAmount * (months - 1) + plan.finalMonthlyAmount == plan.grandTotal
  }

  /** A plan exists exactly for a positive amount over some months at nought to a hundred per cent. */
  lemma PlanExactly(principal: int, rate: real, months: int)
    ensures var r := ComputeInstallmentPlan(principal, rate, months);
      && (r.Ok? <==> principal > 0 && 0.0 <= rate <= 100.0 && months > 0)
      && (r.Ok? ==> AddsUp(r.value, principal, months) && IsPriced(r.value, principal, rate, months))
      && (r.Err? ==> r.error == if months <= 0 then InvalidMonths else if principal <= 0 then InvalidPrincipal else InvalidRate)
  {
    if principal > 0 && 0.0 <= rate <= 100.0 && months > 0 {
      PlanIsDefined(principal, rate, months);
      PlanIsPriced(principal, rate, months);
    }
  }

  lemma PlanIsPriced(principal: int, rate: real, months: int)
    requires principal > 0 && 0.0 <= rate <= 100.0 && months > 0 && ComputeInstallmentPlan(principal, rate, months).Ok?
    requires ComputeInstallmentPlan(principal, rate, months).value.totalInterest >= 0
    ensures IsPriced(ComputeInstallmentPlan(principal, rate, months).value, principal, rate, months)
  {
    var interest := principal as real * rate / 100.0 * months as real;
    InterestForms(principal, rate, months);
    InterestIsPositive(principal, rate, months);
    ToMoneyIsNearest(interest);
    var share := (principal + ToMoney(interest)) as real / months as real;
    assert share >= 0.0;
    ToMoneyIsNearest(share);
  }

  lemma InterestIsPositive(principal: int, rate: real, months: int)
    requires principal > 0 && 0.0 <= rate && months > 0
    ensures principal as real * rate / 100.0 * months as real >= 0.0
  {
    assert principal as real * rate >= 0.0;
    assert principal as real * rate / 100.0 >= 0.0;
  }

  /** 1200.00 at two per cent a month over twelve months costs 288.00. */
  lemma TwelveMonthsAtTwoPercent()
    ensures ComputeInstallmentPlan(120_000, 2.0, 12) == Ok(Plan(120_000, 28_800, 148_800, 12_400, 12_400))
  {
    assert (120_000 as real * 2.0 / 100.0 * 12 as real) == 28_800.0;
    assert 148_800 as real / 12 as real == 12_400.0;
  }

  /** A valid request always has a plan. */
  lemma PlanIsDefined(principal: int, rate: real, months: int)
    requires principal > 0 && 0.0 <= rate <= 100.0 && months > 0
    ensures var r := ComputeInstallmentPlan(principal, rate, months);
      && r.Ok? && r.value.totalInterest >= 0 && r.value.grandTotal >= principal && r.value.monthlyAmount >= 0
  {
    var interest := principal as real * rate / 100.0 * months as real;
    assert principal as real * rate >= 0.0;
    assert principal as real * rate / 100.0 >= 0.0;
    assert interest >= 0.0;
    ToMoneyIsNearest(interest);
    MonthlyAmountBound(principal + ToMoney(interest), months);
  }

  lemma {:induction false} PaidBeforeFinal(grandTotal: int, monthlyAmount: int, months: int, k: nat)
    requires k < months
    ensures PaidAfter(grandTotal, monthlyAmount, months, k) == k * monthlyAmount
  {
    if k > 0 {
      PaidBeforeFinal(grandTotal, monthlyAmount, months, k - 1);
    }
  }

  /** The schedule sums to the grand total exactly, whatever the rounding did. */
  lemma ScheduleIsExact(grandTotal: int, monthlyAmount: int, months: nat)
    requires months > 0
    ensures PaidAfter(grandTotal, monthlyAmount, months, months) == grandTotal
  {
    PaidBeforeFinal(grandTotal, monthlyAmount, months, months - 1);
  }

  /** The last term stays within n/2 cents of the others. */
  lemma FinalTermBound(principal: int, rate: real, months: int)
    requires principal > 0 && 0.0 <= rate <= 100.0 && months > 0
    ensures var plan := ComputeInstallmentPlan(principal, rate, months).value;
      && ComputeInstallmentPlan(principal, rate, months).Ok?
      && -months <= 2 * (plan.finalMonthlyAmount - plan.monthlyAmount) <= months
  {
    PlanIsDefined(principal, rate, months);
    var plan := ComputeInstallmentPlan(principal, rate, months).value;
    MonthlyAmountBound(plan.grandTotal, months);
    assert plan.monthlyAmount * (months - 1) == months * plan.monthlyAmount - plan.monthlyAmount;
  }

  /** Hence positive for every admissible tenor once the monthly amount is at least 0.61. */
  lemma FinalTermPositive(principal: int, rate: real, months: int)
    requires principal > 0 && 0.0 <= rate <= 100.0 && 1 <= months <= MAX_MONTHS
    requires ComputeInstallmentPlan(principal, rate, months).value.monthlyAmount >= 61
    ensures ComputeInstallmentPlan(principal, rate, months).value.finalMonthlyAmount > 0
  {
    FinalTermBound(principal, rate, months);
  }

  /** Tiny plans break: 60 cents over 120 months rounds to a cent a month and overshoots. */
  lemma TinyPlanOvershoots()
    ensures ComputeInstallmentPlan(60, 0.0, 120) == Ok(Plan(60, 0, 60, 1, -59))
  {
    assert (60 as real * 0.0 / 100.0 * 120 as real) == 0.0;
    assert 60 as real / 120 as real == 0.5;
  }
}
