/** The cash-flow calculator: the request model and its range constraints,
    the before-tax / after-tax cash-flow pipeline, the 16-entry breakdown,
    rounding to cents, and the handler's four outcomes. All quantities are
    exact rationals. */
module CashFlow {
  import opened Values
  import opened Helpers
  import opened Annuity
  import ApiResponse

  /** A cash-flow request. Percentages are kept as percent values (5 means
      5 %) and divided by 100 only inside the calculation. */
  datatype CashFlowRequest = CashFlowRequest(
    propertyPrice: real,
    loanAmount: real,
    loanTermYears: int,
    interestRate: real,
    monthlyRent: real,
    unitCount: int,
    vacancyRate: real,
    managementFeeRate: real,
    insuranceMonthly: real,
    maintenanceMonthly: real,
    utilitiesMonthly: real,
    taxRate: real)
  {
    /** The range constraints of the request model, all at once. */
    predicate Valid() {
      && propertyPrice > 0.0
      && loanAmount >= 0.0
      && 0 < loanTermYears <= 50
      && 0.0 < interestRate <= 100.0
      && monthlyRent >= 0.0
      && unitCount > 0
      && 0.0 <= vacancyRate <= 100.0
      && 0.0 <= managementFeeRate <= 20.0
      && insuranceMonthly >= 0.0
      && maintenanceMonthly >= 0.0
      && utilitiesMonthly >= 0.0
      && 0.0 <= taxRate <= 50.0
    }
  }

  const DEFAULT_MANAGEMENT_FEE_RATE: real := 6.0

  /** `body` supplies `x` for the number field `key`: the number itself when
      the key is present, otherwise the field's default (if it has one). */
  predicate NumberAt(body: map<string, Value>, key: string, x: real, default: Option<real>) {
    if key in body then body[key] == Number(x) else default == Some(x)
  }

  /** `body` supplies the whole number `i` for the required field `key`. */
  predicate IntAt(body: map<string, Value>, key: string, i: int) {
    key in body && body[key] == Number(i as real)
  }

  /** `req` is what `body` says, field by field, with the defaults filled in. */
  predicate Describes(body: map<string, Value>, req: CashFlowRequest) {
    && NumberAt(body, "property_price", req.propertyPrice, None)
    && NumberAt(body, "loan_amount", req.loanAmount, None)
    && IntAt(body, "loan_term_years", req.loanTermYears)
    && NumberAt(body, "interest_rate", req.interestRate, None)
    && NumberAt(body, "monthly_rent", req.monthlyRent, None)
    && IntAt(body, "unit_count", req.unitCount)
    && NumberAt(body, "vacancy_rate", req.vacancyRate, None)
    && NumberAt(body, "management_fee_rate", req.managementFeeRate, Some(DEFAULT_MANAGEMENT_FEE_RATE))
    && NumberAt(body, "insurance_monthly", req.insuranceMonthly, Some(0.0))
    && NumberAt(body, "maintenance_monthly", req.maintenanceMonthly, Some(0.0))
    && NumberAt(body, "common_area_utilities_monthly", req.utilitiesMonthly, Some(0.0))
    && NumberAt(body, "tax_rate", req.taxRate, Some(0.0))
  }

  function NumberField(body: map<string, Value>, key: string, default: Option<real>): Option<real> {
    if key !in body then default
    else if body[key].Number? then Some(body[key].n)
    else None
  }

  function IntField(body: map<string, Value>, key: string): Option<int> {
    if key in body && body[key].Number? && IsInteger(body[key].n) then Some(body[key].n.Floor) else None
  }

  /** Building the request model from a decoded JSON object: every field
      well-typed (defaults for the four optional ones) and every range
      constraint met, or no request at all. Unknown keys are ignored. */
  function FromBody(body: map<string, Value>): (r: Option<CashFlowRequest>)
    ensures r.Some? ==> r.value.Valid() && Describes(body, r.value)
    ensures forall req :: Describes(body, req) && req.Valid() ==> r == Some(req)
  {
    var price := NumberField(body, "property_price", None);
    var loan := NumberField(body, "loan_amount", None);
    var years := IntField(body, "loan_term_years");
    var interest := NumberField(body, "interest_rate", None);
    var rent := NumberField(body, "monthly_rent", None);
    var units := IntField(body, "unit_count");
    var vacancy := NumberField(body, "vacancy_rate", None);
    var fee := NumberField(body, "management_fee_rate", Some(DEFAULT_MANAGEMENT_FEE_RATE));
    var insurance := NumberField(body, "insurance_monthly", Some(0.0));
    var maintenance := NumberField(body, "maintenance_monthly", Some(0.0));
    var utilities := NumberField(body, "common_area_utilities_monthly", Some(0.0));
    var tax := NumberField(body, "tax_rate", Some(0.0));
    if && price.Some? && loan.Some? && years.Some? && interest.Some? && rent.Some? && units.Some?
       && vacancy.Some? && fee.Some? && insurance.Some? && maintenance.Some? && utilities.Some? && tax.Some?
    then
      var req := CashFlowRequest(price.value, loan.value, years.value, interest.value, rent.value, units.value,
                                 vacancy.value, fee.value, insurance.value, maintenance.value, utilities.value, tax.value);
      if req.Valid() then Some(req) else None
    else
      None
  }

  /** Every named quantity of the calculation, before rounding. */
  datatype Figures = Figures(
    totalMonthlyRent: real,
    effectiveMonthlyRent: real,
    monthlyManagementFee: real,
    monthlyNoi: real,
    annualNoi: real,
    monthlyInterestRate: real,
    numPayments: nat,
    monthlyLoanPayment: real,
    annualLoanPayment: real,
    annualBtcf: real,
    monthlyBtcf: real,
    annualTax: real,
    annualAtcf: real,
    monthlyAtcf: real)

  /** The calculation pipeline for a validated request: rent, vacancy,
      management fee, NOI, loan payment, BTCF, tax, ATCF. */
  function Calculate(req: CashFlowRequest): (f: Figures)
    requires req.Valid()
    ensures f.totalMonthlyRent - f.effectiveMonthlyRent
         == req.monthlyRent * (req.unitCount as real) * req.vacancyRate / 100.0
    ensures f.numPayments == 12 * req.loanTermYears && f.monthlyInterestRate > 0.0
    ensures (f.monthlyLoanPayment == 0.0) <==> (req.loanAmount == 0.0)
    ensures req.loanAmount > 0.0 ==> f.monthlyLoanPayment > 0.0
  {
    var totalMonthlyRent := req.monthlyRent * (req.unitCount as real);
    var effectiveMonthlyRent := totalMonthlyRent * (1.0 - req.vacancyRate / 100.0);
    var monthlyManagementFee := effectiveMonthlyRent * (req.managementFeeRate / 100.0);
    var monthlyNoi := effectiveMonthlyRent - monthlyManagementFee - req.insuranceMonthly
                      - req.maintenanceMonthly - req.utilitiesMonthly;
    var annualNoi := monthlyNoi * 12.0;
    var monthlyInterestRate := (req.interestRate / 100.0) / 12.0;
    var numPayments := req.loanTermYears * 12;
    var monthlyLoanPayment := MonthlyPayment(req.loanAmount, monthlyInterestRate, numPayments);
    var annualLoanPayment := monthlyLoanPayment * 12.0;
    var annualBtcf := annualNoi - annualLoanPayment;
    var monthlyBtcf := annualBtcf / 12.0;
    var annualTax := annualBtcf * (req.taxRate / 100.0);
    var annualAtcf := annualBtcf - annualTax;
    var monthlyAtcf := annualAtcf / 12.0;
    Figures(totalMonthlyRent, effectiveMonthlyRent, monthlyManagementFee, monthlyNoi, annualNoi,
            monthlyInterestRate, numPayments, monthlyLoanPayment, annualLoanPayment, annualBtcf,
            monthlyBtcf, annualTax, annualAtcf, monthlyAtcf)
  }

  /** A validated request with no loan pays nothing on the loan, and its
      before-tax cash flow is its NOI. */
  lemma NoLoanMeansNoPayment(req: CashFlowRequest)
    requires req.Valid() && req.loanAmount == 0.0
    ensures Calculate(req).monthlyLoanPayment == 0.0 && Calculate(req).annualLoanPayment == 0.0
    ensures Calculate(req).annualBtcf == Calculate(req).annualNoi
  {
  }

  /** With a loan, the monthly payment is exactly the level payment that
      leaves nothing owed after the last of the `12 * loan_term_years`
      months, and those payments together exceed the loan. */
  lemma LoanPaymentAmortizes(req: CashFlowRequest)
    requires req.Valid() && req.loanAmount > 0.0
    ensures var f := Calculate(req);
      && Balance(req.loanAmount, f.monthlyInterestRate, f.monthlyLoanPayment, f.numPayments) == 0.0
      && f.monthlyLoanPayment * (f.numPayments as real) > req.loanAmount
  {
    var f := Calculate(req);
    PaymentRepaysLoan(req.loanAmount, f.monthlyInterestRate, f.numPayments);
    PaymentExceedsInterestAndPrincipal(req.loanAmount, f.monthlyInterestRate, f.numPayments);
  }

  /** The vacancy loss is the vacancy share of the total rent; with no
      vacancy nothing is lost. */
  lemma VacancyLoss(req: CashFlowRequest)
    requires req.Valid()
    ensures var f := Calculate(req);
      && f.totalMonthlyRent == req.monthlyRent * (req.unitCount as real)
      && (req.vacancyRate == 0.0 ==> f.effectiveMonthlyRent == f.totalMonthlyRent)
      && 0.0 <= f.effectiveMonthlyRent <= f.totalMonthlyRent
  {
    var f := Calculate(req);
    var total := req.monthlyRent * (req.unitCount as real);
    assert total >= 0.0;
    MulMonotone(total, 1.0, 1.0 - req.vacancyRate / 100.0);
    MulMonotone(total, 1.0 - req.vacancyRate / 100.0, 0.0);
  }

  /** NOI in terms of the inputs: twelve times the effective rent less the
      management fee and the three monthly costs. */
  lemma NoiClosedForm(req: CashFlowRequest)
    requires req.Valid()
    ensures var f := Calculate(req); var eff := f.effectiveMonthlyRent;
      && f.monthlyNoi == eff * (1.0 - req.managementFeeRate / 100.0)
                         - req.insuranceMonthly - req.maintenanceMonthly - req.utilitiesMonthly
      && f.annualNoi == 12.0 * eff - 12.0 * f.monthlyManagementFee - 12.0 * req.insuranceMonthly
                        - 12.0 * req.maintenanceMonthly - 12.0 * req.utilitiesMonthly
  {
  }

  /** Tax and after-tax cash flow: the tax is the tax rate's share of BTCF,
      negative when BTCF is (it is not clamped), and ATCF keeps the rest;
      the monthly figures are twelfths of the annual ones. */
  lemma TaxAndAfterTax(req: CashFlowRequest)
    requires req.Valid()
    ensures var f := Calculate(req);
      && f.annualAtcf == f.annualBtcf * (1.0 - req.taxRate / 100.0)
      && f.annualTax + f.annualAtcf == f.annualBtcf
      && (req.taxRate == 0.0 ==> f.annualTax == 0.0 && f.annualAtcf == f.annualBtcf)
      && (f.annualBtcf < 0.0 && req.taxRate > 0.0 ==> f.annualTax < 0.0)
      && f.monthlyBtcf * 12.0 == f.annualBtcf && f.monthlyAtcf * 12.0 == f.annualAtcf
  {
    var f := Calculate(req);
    if f.annualBtcf < 0.0 && req.taxRate > 0.0 {
      assert f.annualTax == f.annualBtcf * (req.taxRate / 100.0);
      MulMonotone(req.taxRate / 100.0, 0.0, f.annualBtcf);
      assert f.annualTax != 0.0;
    }
  }

  /** Python's `round(x)` on an exact value: the nearest integer, and at a
      tie (`x` halfway between two integers) the even one. */
  function RoundHalfEven(x: real): (i: int)
    ensures x - 0.5 <= i as real <= x + 0.5
    ensures (i as real == x - 0.5 || i as real == x + 0.5) ==> i % 2 == 0
  {
    var f := x.Floor;
    var d := x - f as real;
    assert 0.0 <= d < 1.0;
    if d < 0.5 then f
    else if d > 0.5 then f + 1
    else if f % 2 == 0 then f else f + 1
  }

  /** `round(x, 2)`: the nearest multiple of one cent, ties to the even cent. */
  function Round2(x: real): (r: real)
    ensures -0.005 <= r - x <= 0.005
    ensures IsInteger(r * 100.0)
    ensures (r - x == 0.005 || x - r == 0.005) ==> (r * 100.0).Floor % 2 == 0
  {
    RoundHalfEven(x * 100.0) as real / 100.0
  }

  /** An amount already in whole cents is left alone by rounding. */
  lemma Round2Exact(x: real)
    requires IsInteger(x * 100.0)
    ensures Round2(x) == x
  {
    var c := (x * 100.0).Floor;
    assert x * 100.0 == c as real;
    assert RoundHalfEven(x * 100.0) == c;
  }

  /** The sixteen keys of the breakdown. */
  const BREAKDOWN_KEYS: set<string> := {
    "total_monthly_rent", "vacancy_loss", "effective_monthly_rent", "management_fee",
    "insurance", "maintenance", "common_area_utilities", "monthly_noi", "annual_noi",
    "monthly_loan_payment", "annual_loan_payment", "monthly_btcf", "annual_btcf",
    "annual_tax", "monthly_atcf", "annual_atcf"}

  /** The breakdown before rounding: sixteen named figures. */
  function Breakdown(req: CashFlowRequest, f: Figures): (b: map<string, real>)
    ensures b.Keys == BREAKDOWN_KEYS
    ensures b["insurance"] == req.insuranceMonthly
    ensures b["maintenance"] == req.maintenanceMonthly
    ensures b["common_area_utilities"] == req.utilitiesMonthly
    ensures b["total_monthly_rent"] == f.totalMonthlyRent && b["effective_monthly_rent"] == f.effectiveMonthlyRent
    ensures b["vacancy_loss"] == f.totalMonthlyRent - f.effectiveMonthlyRent
    ensures b["management_fee"] == f.monthlyManagementFee
    ensures b["monthly_noi"] == f.monthlyNoi && b["annual_noi"] == f.annualNoi
    ensures b["monthly_loan_payment"] == f.monthlyLoanPayment && b["annual_loan_payment"] == f.annualLoanPayment
    ensures b["monthly_btcf"] == f.monthlyBtcf && b["annual_btcf"] == f.annualBtcf
    ensures b["annual_tax"] == f.annualTax
    ensures b["monthly_atcf"] == f.monthlyAtcf && b["annual_atcf"] == f.annualAtcf
  {
    map[
      "total_monthly_rent" := f.totalMonthlyRent,
      "vacancy_loss" := f.totalMonthlyRent - f.effectiveMonthlyRent,
      "effective_monthly_rent" := f.effectiveMonthlyRent,
      "management_fee" := f.monthlyManagementFee,
      "insurance" := req.insuranceMonthly,
      "maintenance" := req.maintenanceMonthly,
      "common_area_utilities" := req.utilitiesMonthly,
      "monthly_noi" := f.monthlyNoi,
      "annual_noi" := f.annualNoi,
      "monthly_loan_payment" := f.monthlyLoanPayment,
      "annual_loan_payment" := f.annualLoanPayment,
      "monthly_btcf" := f.monthlyBtcf,
      "annual_btcf" := f.annualBtcf,
      "annual_tax" := f.annualTax,
      "monthly_atcf" := f.monthlyAtcf,
      "annual_atcf" := f.annualAtcf
    ]
  }

  /** The response data: nine headline figures and the breakdown, all
      rounded to cents. */
  datatype CashFlowResponse = CashFlowResponse(
    noi: real,
    btcf: real,
    atcf: real,
    monthlyNoi: real,
    monthlyBtcf: real,
    monthlyAtcf: real,
    annualLoanPayment: real,
    monthlyLoanPayment: real,
    annualTax: real,
    breakdown: map<string, real>)

  /** The response for figures `f`: every headline figure and every
      breakdown entry rounded to cents. */
  function Report(req: CashFlowRequest, f: Figures): (r: CashFlowResponse)
    ensures r.breakdown.Keys == BREAKDOWN_KEYS
    ensures forall k :: k in r.breakdown ==> r.breakdown[k] == Round2(Breakdown(req, f)[k])
  {
    var b := Breakdown(req, f);
    CashFlowResponse(
      Round2(f.annualNoi), Round2(f.annualBtcf), Round2(f.annualAtcf),
      Round2(f.monthlyNoi), Round2(f.monthlyBtcf), Round2(f.monthlyAtcf),
      Round2(f.annualLoanPayment), Round2(f.monthlyLoanPayment), Round2(f.annualTax),
      RoundAll(b))
  }

  /** Every entry of a breakdown rounded to cents. */
  function RoundAll(b: map<string, real>): (m: map<string, real>)
    ensures m.Keys == b.Keys
    ensures forall k :: k in m ==> m[k] == Round2(b[k])
  {
    map k | k in b :: Round2(b[k])
  }

  /** Calculate, break down, and round: every headline figure is the
      rounded figure of the calculation, and the breakdown has its sixteen
      keys. */
  function Respond(req: CashFlowRequest): (r: CashFlowResponse)
    requires req.Valid()
    ensures var f := Calculate(req);
      && r.noi == Round2(f.annualNoi) && r.btcf == Round2(f.annualBtcf) && r.atcf == Round2(f.annualAtcf)
      && r.monthlyNoi == Round2(f.monthlyNoi) && r.monthlyBtcf == Round2(f.monthlyBtcf)
      && r.monthlyAtcf == Round2(f.monthlyAtcf) && r.annualLoanPayment == Round2(f.annualLoanPayment)
      && r.monthlyLoanPayment == Round2(f.monthlyLoanPayment) && r.annualTax == Round2(f.annualTax)
    ensures r.breakdown.Keys == BREAKDOWN_KEYS
  {
    Report(req, Calculate(req))
  }

  /** With no vacancy, the reported vacancy loss is zero. */
  lemma ZeroVacancyResponse(req: CashFlowRequest)
    requires req.Valid() && req.vacancyRate == 0.0
    ensures Respond(req).breakdown["vacancy_loss"] == 0.0
  {
    VacancyLoss(req);
    Round2Exact(0.0);
  }

  /** With no loan, the reported payments are zero and the reported BTCF is
      the reported NOI. */
  lemma NoLoanResponse(req: CashFlowRequest)
    requires req.Valid() && req.loanAmount == 0.0
    ensures Respond(req).annualLoanPayment == 0.0 && Respond(req).monthlyLoanPayment == 0.0
    ensures Respond(req).noi == Respond(req).btcf
  {
    NoLoanMeansNoPayment(req);
    Round2Exact(0.0);
  }

  /** Each headline figure is its breakdown counterpart: both are the same
      figure before rounding, and so the same after it. */
  lemma HeadlinesMatchBreakdown(req: CashFlowRequest, f: Figures)
    ensures var r := Report(req, f); var b := r.breakdown;
      && r.noi == b["annual_noi"] && r.btcf == b["annual_btcf"] && r.atcf == b["annual_atcf"]
      && r.monthlyNoi == b["monthly_noi"] && r.monthlyBtcf == b["monthly_btcf"]
      && r.monthlyAtcf == b["monthly_atcf"] && r.annualLoanPayment == b["annual_loan_payment"]
      && r.monthlyLoanPayment == b["monthly_loan_payment"] && r.annualTax == b["annual_tax"]
  {
  }

  /** Three amounts, each rounded to within half a cent: a before-tax cash
      flow `b`, its tax `b * t` and what is left `b - b * t`. The rounded tax
      is within a cent of the rounded BTCF times the rate (for a rate up to
      one half), and the rounded ATCF within a cent and a half of rounded
      BTCF less rounded tax. */
  lemma RoundingTolerance(b: real, t: real, rb: real, rt: real, ra: real)
    requires 0.0 <= t <= 0.5
    requires -0.005 <= rb - b <= 0.005
    requires -0.005 <= rt - b * t <= 0.005
    requires -0.005 <= ra - (b - b * t) <= 0.005
    ensures -0.01 < rt - rb * t < 0.01
    ensures -0.015 <= ra - (rb - rt) <= 0.015
  {
    var e := rb - b;
    HalfCentScaled(t, e);
    assert rb * t == b * t + t * e;
  }

  /** A rounding error of at most half a cent, scaled by a rate of at most
      one half, is at most a quarter of a cent. */
  lemma HalfCentScaled(t: real, e: real)
    requires 0.0 <= t <= 0.5
    requires -0.005 <= e <= 0.005
    ensures -0.0025 <= t * e <= 0.0025
  {
    MulMonotone(t, e + 0.005, 0.0);
    assert t * (e + 0.005) >= 0.0;
    assert t * (e + 0.005) == t * e + t * 0.005;
    MulMonotone(t, 0.005 - e, 0.0);
    assert t * (0.005 - e) >= 0.0;
    assert t * (0.005 - e) == t * 0.005 - t * e;
  }

  /** A rounded tax within (strictly) one cent of the rounded BTCF times the
      rate `t`. */
  ghost predicate TaxWithinCent(tax: real, btcf: real, t: real) {
    -0.01 < tax - btcf * t < 0.01
  }

  /** A difference of minus one, zero or one cent. */
  ghost predicate WithinOneCent(d: real) {
    d == -0.01 || d == 0.0 || d == 0.01
  }

  /** Three whole-cent amounts whose combination is within a cent and a half
      of zero differ by a whole cent at most. */
  lemma WholeCents(ra: real, rb: real, rt: real)
    requires IsInteger(ra * 100.0) && IsInteger(rb * 100.0) && IsInteger(rt * 100.0)
    requires -0.015 <= ra - (rb - rt) <= 0.015
    ensures WithinOneCent(ra - (rb - rt))
  {
    var n := (ra * 100.0).Floor - (rb * 100.0).Floor + (rt * 100.0).Floor;
    assert (ra - (rb - rt)) * 100.0 == n as real;
    assert -1 <= n <= 1;
  }

  /** The tolerances for figures rounded by `Round2`: a BTCF `b`, its tax
      `b * t` and what is left. Rounded ATCF and rounded BTCF less rounded
      tax are whole cents, so they differ by one cent at most, either way. */
  lemma RoundedFiguresTolerance(b: real, t: real, tax: real, atcf: real)
    requires 0.0 <= t <= 0.5
    requires tax == b * t
    requires atcf == b - tax
    ensures TaxWithinCent(Round2(tax), Round2(b), t)
    ensures WithinOneCent(Round2(atcf) - (Round2(b) - Round2(tax)))
  {
    RoundingTolerance(b, t, Round2(b), Round2(tax), Round2(atcf));
    WholeCents(Round2(atcf), Round2(b), Round2(tax));
  }

  /** The one-cent difference happens: with a tax rate of one half, a BTCF
      of 0.014 is taxed 0.007; the three round to 0.01, 0.01 and 0.01, so
      rounded ATCF exceeds rounded BTCF less rounded tax by a whole cent. */
  lemma AfterTaxCentGap()
    ensures Round2(0.014) == 0.01 && Round2(0.007) == 0.01
    ensures Round2(0.007) - (Round2(0.014) - Round2(0.007)) == 0.01
  {
    assert RoundHalfEven(1.4) == 1;
    assert RoundHalfEven(0.7) == 1;
  }

  /** The tolerances the calculation's tests allow hold of every response:
      rounded tax against rounded BTCF times the tax rate within a cent, and
      rounded ATCF against rounded BTCF less rounded tax within 1.5 cents. */
  lemma RoundedTaxTolerance(req: CashFlowRequest)
    requires req.Valid()
    ensures var r := Respond(req);
      && TaxWithinCent(r.annualTax, r.btcf, req.taxRate / 100.0)
      && WithinOneCent(r.atcf - (r.btcf - r.annualTax))
  {
    var f := Calculate(req);
    TaxAndAfterTax(req);
    RoundedFiguresTolerance(f.annualBtcf, req.taxRate / 100.0, f.annualTax, f.annualAtcf);
  }

  /** A valid request whose response shows the one-cent gap: no loan, one
      unit let at 0.0012 a month with no vacancy, fee or costs, taxed at
      50 %. Its BTCF is 0.0144 and its tax and ATCF 0.0072 each, which round
      to 0.01, 0.01 and 0.01. */
  lemma ResponseCentGap()
    ensures var req := CashFlowRequest(100000.0, 0.0, 30, 5.0, 0.0012, 1, 0.0, 0.0, 0.0, 0.0, 0.0, 50.0);
      && req.Valid()
      && Respond(req).atcf - (Respond(req).btcf - Respond(req).annualTax) == 0.01
  {
    var req := CashFlowRequest(100000.0, 0.0, 30, 5.0, 0.0012, 1, 0.0, 0.0, 0.0, 0.0, 0.0, 50.0);
    var f := Calculate(req);
    assert f.monthlyLoanPayment == 0.0;
    assert f.annualBtcf == 0.0144;
    assert f.annualTax == 0.0072 && f.annualAtcf == 0.0072;
    assert RoundHalfEven(1.44) == 1;
    assert RoundHalfEven(0.72) == 1;
  }

  /** The response data as the JSON object the success envelope carries:
      the nine headline figures and the breakdown, each a JSON number. */
  function ToValue(r: CashFlowResponse): (v: Value)
    ensures v.Obj? && v.fields.Keys == {
      "noi", "btcf", "atcf", "monthly_noi", "monthly_btcf", "monthly_atcf",
      "annual_loan_payment", "monthly_loan_payment", "annual_tax", "breakdown"}
    ensures v.fields["noi"] == Number(r.noi) && v.fields["annual_tax"] == Number(r.annualTax)
    ensures v.fields["btcf"] == Number(r.btcf) && v.fields["atcf"] == Number(r.atcf)
    ensures v.fields["monthly_noi"] == Number(r.monthlyNoi) && v.fields["monthly_btcf"] == Number(r.monthlyBtcf)
    ensures v.fields["monthly_atcf"] == Number(r.monthlyAtcf)
    ensures v.fields["annual_loan_payment"] == Number(r.annualLoanPayment)
    ensures v.fields["monthly_loan_payment"] == Number(r.monthlyLoanPayment)
    ensures v.fields["breakdown"].Obj? && v.fields["breakdown"].fields.Keys == r.breakdown.Keys
    ensures forall k :: k in r.breakdown ==> v.fields["breakdown"].fields[k] == Number(r.breakdown[k])
  {
    Obj(map[
      "noi" := Number(r.noi),
      "btcf" := Number(r.btcf),
      "atcf" := Number(r.atcf),
      "monthly_noi" := Number(r.monthlyNoi),
      "monthly_btcf" := Number(r.monthlyBtcf),
      "monthly_atcf" := Number(r.monthlyAtcf),
      "annual_loan_payment" := Number(r.annualLoanPayment),
      "monthly_loan_payment" := Number(r.monthlyLoanPayment),
      "annual_tax" := Number(r.annualTax),
      "breakdown" := Obj(map k | k in r.breakdown :: Number(r.breakdown[k]))
    ])
  }

  /** How one invocation ends: an unparsable body, a body the request model
      rejects, a calculated response, or an unexpected exception (a body that
      is not text, or text that decodes to something other than an object). */
  datatype Outcome = InvalidJson | InvalidRequest | Calculated(response: CashFlowResponse) | Crashed

  /** The event's body text; a missing body is read as `'{}'`. */
  function BodyText(event: map<string, Value>): (t: Option<string>)
    ensures "body" !in event ==> t == Some("{}")
    ensures "body" in event && event["body"].Str? ==> t == Some(event["body"].s)
    ensures t.None? <==> "body" in event && !event["body"].Str?
  {
    if "body" !in event then Some("{}")
    else if event["body"].Str? then Some(event["body"].s)
    else None
  }

  /** The handler's decision, with the JSON decoder passed in as `parse`
      (`None` for a decoding error). */
  function Evaluate(event: map<string, Value>, parse: string -> Option<Value>): (o: Outcome)
    ensures o.Calculated? <==>
      && BodyText(event).Some?
      && parse(BodyText(event).value).Some?
      && parse(BodyText(event).value).value.Obj?
      && FromBody(parse(BodyText(event).value).value.fields).Some?
    ensures o.Calculated? ==>
      var req := FromBody(parse(BodyText(event).value).value.fields).value;
      && req.Valid()
      && Describes(parse(BodyText(event).value).value.fields, req)
      && o.response == Respond(req)
    ensures o == InvalidJson <==> BodyText(event).Some? && parse(BodyText(event).value).None?
    ensures o == InvalidRequest <==>
      && BodyText(event).Some?
      && parse(BodyText(event).value).Some?
      && parse(BodyText(event).value).value.Obj?
      && FromBody(parse(BodyText(event).value).value.fields).None?
    ensures o == Crashed <==>
      || BodyText(event).None?
      || (parse(BodyText(event).value).Some? && !parse(BodyText(event).value).value.Obj?)
  {
    match BodyText(event)
    case None => Crashed
    case Some(text) =>
      match parse(text)
      case None => InvalidJson
      case Some(v) =>
        if !v.Obj? then Crashed
        else
          match FromBody(v.fields)
          case None => InvalidRequest
          case Some(req) => Calculated(Respond(req))
  }

  const INVALID_JSON_MESSAGE := "Invalid JSON in request body"
  const INVALID_REQUEST_MESSAGE := "Invalid request data"
  const INTERNAL_ERROR_MESSAGE := "Internal server error while calculating cash flow"

  /** The handler: each outcome as its HTTP response. Error responses carry
      no code; `now` is the clock reading used for their timestamp. */
  function Handler(event: map<string, Value>, parse: string -> Option<Value>, now: string): (r: Response)
    ensures Evaluate(event, parse) == InvalidJson ==> ErrorEnvelope(r, 400, INVALID_JSON_MESSAGE, None, now)
    ensures Evaluate(event, parse) == InvalidRequest ==> ErrorEnvelope(r, 400, INVALID_REQUEST_MESSAGE, None, now)
    ensures Evaluate(event, parse) == Crashed ==> ErrorEnvelope(r, 500, INTERNAL_ERROR_MESSAGE, None, now)
    ensures Evaluate(event, parse).Calculated? ==>
      && r.statusCode == 200
      && r.headers == DefaultHeaders()
      && r.body == Obj(map["success" := Bool(true), "data" := ToValue(Evaluate(event, parse).response)])
  {
    match Evaluate(event, parse)
    case InvalidJson => ApiResponse.Error(INVALID_JSON_MESSAGE, now, 400)
    case InvalidRequest => ApiResponse.Error(INVALID_REQUEST_MESSAGE, now, 400)
    case Crashed => ApiResponse.Error(INTERNAL_ERROR_MESSAGE, now, 500)
    case Calculated(resp) => ApiResponse.Success(ToValue(resp))
  }

  /** A request without a body is read as the empty object, which lacks the
      required fields, so it is rejected as invalid request data. */
  lemma MissingBodyIsInvalidRequest(event: map<string, Value>, parse: string -> Option<Value>)
    requires "body" !in event
    requires parse("{}") == Some(Obj(map[]))
    ensures Evaluate(event, parse) == InvalidRequest
  {
  }

  /** A body missing `loan_term_years` is rejected, whatever else it holds. */
  lemma MissingTermIsRejected(body: map<string, Value>)
    requires "loan_term_years" !in body
    ensures FromBody(body).None?
  {
  }
}
