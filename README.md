# Real-estate API core in Dafny

A model of the logic at the centre of a serverless real-estate listing and
investment API, together with proofs about it. The model covers four parts:

- **The cash-flow calculator** (`CashFlow`, with the loan annuity in
  `Annuity`):
  - the request model's twelve range-checked fields and their defaults;
  - the before-tax / after-tax cash-flow pipeline: rent, vacancy, management
    fee, NOI, the amortising loan payment, BTCF, tax and ATCF;
  - the sixteen-entry breakdown, the rounding to cents, and the handler's
    outcomes and HTTP responses.

  All quantities are exact rationals (`real`). `(1+r)^n` is a recursive `Pow`.
  Besides the identities the calculator's tests check numerically, the
  proofs show two things about the payment: its denominator `(1+r)^n - 1` is
  positive, and the payment repays the loan exactly after
  `12 * loan_term_years` months.
- **The property record** (`Models`):
  - the status enumeration and its validator;
  - the field bounds of the create and update models;
  - `create_new`;
  - the in-place `update_fields`, as a class whose `setattr` loop is a
    verified `for` loop;
  - the stored-item round trip `to_dynamodb_item` / `from_dynamodb_item`.
- **The response helpers** (`Helpers`): the response record, the
  default-header merge, the error body (whose `code` appears only when a code
  is given), the JSON fallback serialiser's type dispatch, and
  `validate_required_fields`, as a method with a loop.
- **The `APIResponse` helpers** (`ApiResponse`): each builder with its fixed
  status and code.

`Values` holds what the modules share: `Option`, and the JSON-shaped `Value`
that request bodies, response bodies and stored items are made of.

The clock, the uuid and the JSON decoder are parameters:

- `now` is the clock reading;
- `id` is the new uuid;
- `parse: string -> Option<Value>` is `json.loads`, with `None` for a decoding
  error.

### Where the model follows the code over its tests

The calculator's tests (`tests/unit/handlers/test_cash_flow.py:187-188`,
`214-215` and `252-253`) expect a failure body with `success: false` and an
`errors` key. The error body the code builds
(`src/shared/utils/helpers.py:46-56`) holds only the `error` object, and the
cash-flow handler answers a rejected request with the single message
"Invalid request data" (`src/handlers/api/calculate/cash_flow.py:86-91`).
The model follows the code.

### How the code behaves, as modelled

- The handler has four outcomes, not three. A body that is not text (such
  as a `null` body) makes `json.loads` raise a `TypeError` at
  `src/handlers/api/calculate/cash_flow.py:81`. Text that decodes to
  something other than a JSON object makes `CashFlowRequest(**body)` raise a
  `TypeError` at line 85. Neither is a `JSONDecodeError` or a
  `ValidationError`, so the generic `except` turns both into the 500
  response "Internal server error while calculating cash flow".
  `Outcome.Crashed` models these paths.
- The update model's `exclude_unset` treats an explicit `null` as a set field,
  and `setattr` does not validate. So an update can set a required field of
  the record to `None`. The five required fields of `PropertyRecord` are
  therefore `Option`s. `UpdatePreservesValidity` proves that a valid update
  keeps a valid record valid exactly when it clears none of them.
- The response's rounded ATCF need not be its rounded BTCF less its rounded
  tax. Each is a whole number of cents, so the two differ by at most one cent
  either way, and `AfterTaxCentGap` shows that a one-cent gap does occur. The
  calculator's tests compare the two with a strict bound of one cent. On
  exact rationals that bound fails for some valid requests:
  `ResponseCentGap` gives one.

## Model

| member | source | states |
|---|---|---|
| Helpers.DefaultHeaders | src/shared/utils/helpers.py:23-28 | exactly the four default header names, with JSON content type and any origin allowed |
| Helpers.CreateResponse | src/shared/utils/helpers.py:16-37 | the status and body are passed through; the header names are the defaults' plus the caller's, and each header takes the caller's value when given and the default's otherwise |
| Helpers.CreateErrorResponse | src/shared/utils/helpers.py:39-56 | status as given, default headers, and a body holding only `error`, whose keys are message and timestamp plus `code` exactly when the code is truthy |
| Helpers.ErrorEnvelopeUnique | src/shared/utils/helpers.py:46-56 | the error envelope (status, message, code, timestamp) determines the whole response |
| Helpers.DecimalSerializer | src/shared/utils/helpers.py:6-14 | serialises exactly Decimal, datetime and date (to a number or ISO text); any other type is a TypeError naming the type |
| Helpers.MissingFieldsExactly | src/shared/utils/helpers.py:66-68 | a name is reported as missing iff it is required and absent or null |
| Helpers.MissingFieldsAppend | src/shared/utils/helpers.py:66-68 | the missing names keep the order of the required list |
| Helpers.ValidateRequiredFields | src/shared/utils/helpers.py:62-73 | None iff every required field is present and non-null; otherwise "Missing required fields: " and the missing names, in order, joined by ", " |
| ApiResponse.Success | src/handlers/api/common/response.py:9-15 | the given status (200 by default), body `{success: true, data}`, and headers merged as in create_response: each takes the caller's value when given and the default's otherwise |
| ApiResponse.Error | src/handlers/api/common/response.py:18-20 | the error envelope with the given status (400 by default) and code; the headers argument has no effect |
| ApiResponse.NotFound | src/handlers/api/common/response.py:23-25 | 404, code NOT_FOUND, message resource + " not found" |
| ApiResponse.ValidationError | src/handlers/api/common/response.py:28-30 | 400, code VALIDATION_ERROR, the given message |
| ApiResponse.InternalError | src/handlers/api/common/response.py:33-35 | 500, code INTERNAL_ERROR, the given message |
| ApiResponse.ErrorCodePresence | src/handlers/api/common/response.py:18-35 | the three named helpers always carry a code; a plain error without one has no `code` key |
| ApiResponse.DefaultMessages | src/handlers/api/common/response.py:9-35 | the default resource "Resource", the default message "Internal server error", and the default statuses 200 and 400 |
| Annuity.Pow | src/handlers/api/calculate/cash_flow.py:122-123 | a base above one raised to a positive power is above one |
| Annuity.MonthlyPayment | src/handlers/api/calculate/cash_flow.py:120-125 | positive when the loan and the rate are positive, zero otherwise |
| Annuity.ClosedFormStep | src/handlers/api/calculate/cash_flow.py:121-123 | one month of interest and payment preserves the closed form of the balance |
| Annuity.BalanceClosedForm | src/handlers/api/calculate/cash_flow.py:121-123 | after k months the balance b satisfies `b * r == L * (1+r)^k * r - P * ((1+r)^k - 1)` |
| Annuity.PaymentEquation | src/handlers/api/calculate/cash_flow.py:121-123 | the denominator is positive, and the payment solves `P * ((1+r)^n - 1) == L * r * (1+r)^n` |
| Annuity.PaymentRepaysLoan | src/handlers/api/calculate/cash_flow.py:117-123 | after n payments of the formula's payment nothing is owed |
| Annuity.PowGrowthBound | src/handlers/api/calculate/cash_flow.py:122-123 | `(1+r)^n - 1 < n r (1+r)^n` |
| Annuity.PaymentExceedsInterestAndPrincipal | src/handlers/api/calculate/cash_flow.py:121-123 | the payment exceeds one month's interest on the loan, and n payments exceed the loan |
| CashFlow.FromBody | src/handlers/api/calculate/cash_flow.py:18-31 | a request is produced iff the body describes one (defaults 6, 0, 0, 0, 0 filled in) that meets all twelve range constraints, and it is that request |
| CashFlow.MissingTermIsRejected | src/handlers/api/calculate/cash_flow.py:22 | a body without `loan_term_years` (a required field) is rejected |
| CashFlow.Calculate | src/handlers/api/calculate/cash_flow.py:96-140 | for a valid request: the rent lost to vacancy is rent times units times the vacancy share, there are `12 * loan_term_years` payments, the monthly rate is positive, and the payment is zero iff the loan is zero (positive otherwise) |
| CashFlow.VacancyLoss | src/handlers/api/calculate/cash_flow.py:96-99 | total rent is rent times units; effective rent lies between 0 and the total, and equals it with no vacancy |
| CashFlow.NoiClosedForm | src/handlers/api/calculate/cash_flow.py:102-114 | monthly NOI is effective rent less its fee share less the three costs; annual NOI is twelve times each term |
| CashFlow.NoLoanMeansNoPayment | src/handlers/api/calculate/cash_flow.py:117-131 | with no loan, both payments are zero and BTCF equals NOI |
| CashFlow.LoanPaymentAmortizes | src/handlers/api/calculate/cash_flow.py:117-127 | with a loan, the monthly payment leaves nothing owed after the last month, and all payments together exceed the loan |
| CashFlow.TaxAndAfterTax | src/handlers/api/calculate/cash_flow.py:131-140 | ATCF is BTCF times one less the tax share; tax plus ATCF is BTCF; no tax at rate zero; negative tax on a negative BTCF; the monthly figures are annual / 12 |
| CashFlow.RoundHalfEven | src/handlers/api/calculate/cash_flow.py:164-173 | within one half of the input, and even at a tie |
| CashFlow.Round2 | src/handlers/api/calculate/cash_flow.py:164-173 | within half a cent of the input, a whole number of cents, and an even number of cents at a tie |
| CashFlow.Round2Exact | src/handlers/api/calculate/cash_flow.py:164-173 | an amount already in whole cents is unchanged by rounding |
| CashFlow.Breakdown | src/handlers/api/calculate/cash_flow.py:143-160 | exactly the sixteen keys, each the figure of the same name (vacancy loss as total less effective rent); insurance, maintenance and common-area utilities echo the inputs |
| CashFlow.RoundAll | src/handlers/api/calculate/cash_flow.py:173 | the same keys, each value rounded to cents |
| CashFlow.Report | src/handlers/api/calculate/cash_flow.py:162-174 | the response breakdown has the sixteen keys, each the rounded unrounded breakdown value |
| CashFlow.HeadlinesMatchBreakdown | src/handlers/api/calculate/cash_flow.py:143-173 | each of the nine headline figures equals its breakdown entry |
| CashFlow.RoundingTolerance | src/handlers/api/calculate/cash_flow.py:136-173 | amounts each within half a cent of BTCF, its tax and ATCF: the tax is within a cent of BTCF times the rate, and ATCF within 1.5 cents of BTCF less tax |
| CashFlow.WholeCents | src/handlers/api/calculate/cash_flow.py:164-172 | whole-cent amounts within 1.5 cents of each other differ by -1, 0 or 1 cent |
| CashFlow.RoundedFiguresTolerance | src/handlers/api/calculate/cash_flow.py:164-172 | for the figures `round(_, 2)` produces: the tax is within a cent of BTCF times the rate, and ATCF differs from BTCF less tax by -1, 0 or 1 cent |
| CashFlow.AfterTaxCentGap | src/handlers/api/calculate/cash_flow.py:164-172 | the one-cent difference occurs: BTCF 0.014 at a 50% rate rounds to ATCF 0.01 against BTCF less tax 0.00 |
| CashFlow.ResponseCentGap | src/handlers/api/calculate/cash_flow.py:96-172 | a valid request a client can send (no loan, one unit at a monthly rent of 0.0012, so BTCF 0.0144, tax rate 50 %) whose rounded ATCF exceeds rounded BTCF less rounded tax by exactly one cent |
| CashFlow.RoundedTaxTolerance | src/handlers/api/calculate/cash_flow.py:131-172 | every response's rounded tax, BTCF and ATCF meet those tolerances |
| CashFlow.ToValue | src/handlers/api/calculate/cash_flow.py:183 | `model_dump()`: the nine headline names and `breakdown`, each headline the JSON number of its own field, the breakdown with its own keys and values |
| CashFlow.Respond | src/handlers/api/calculate/cash_flow.py:96-173 | each of the nine headline figures is its calculated figure rounded to cents, and the breakdown has the sixteen keys |
| CashFlow.ZeroVacancyResponse | src/handlers/api/calculate/cash_flow.py:145 | with no vacancy, the reported vacancy loss is zero |
| CashFlow.NoLoanResponse | src/handlers/api/calculate/cash_flow.py:117-131 | with no loan, the reported payments are zero and the reported BTCF equals the reported NOI |
| CashFlow.BodyText | src/handlers/api/calculate/cash_flow.py:81 | a missing body is the text `{}`, a text body is itself, and any other body has no text (`json.loads` raises a `TypeError`) |
| CashFlow.Evaluate | src/handlers/api/calculate/cash_flow.py:81-91 | calculated iff the body text decodes to an object the request model accepts, and then it is the response for that request; invalid JSON iff decoding fails; invalid request iff it decodes to an object the request model refuses; crashed iff the body is not text or decodes to a non-object |
| CashFlow.Handler | src/handlers/api/calculate/cash_flow.py:74-198 | invalid JSON: 400 "Invalid JSON in request body"; rejected request: 400 "Invalid request data"; an unexpected exception: 500 "Internal server error while calculating cash flow"; none carries a code. Success: 200 with `{success: true, data}` |
| CashFlow.MissingBodyIsInvalidRequest | src/handlers/api/calculate/cash_flow.py:81-91 | an event without a body is read as `{}` and rejected as invalid request data |
| Models.ValidateStatus | src/shared/database/models.py:26-36 | accepted, unchanged, iff it is one of the four statuses; otherwise the list message |
| Models.ValidateOptionalStatus | src/shared/database/models.py:60-71 | None is accepted; otherwise as the create model's status check |
| Models.ParseCreate | src/shared/database/models.py:14-24 | an accepted object meets every bound of the create model and is what the object says, with status "active" when absent |
| Models.ParseCreateComplete | src/shared/database/models.py:14-24 | every well-typed object within the bounds is accepted as the data it describes |
| Models.WithSystemFields | src/shared/database/models.py:79-83 | the create fields together with the three system fields |
| Models.FromItem | src/shared/database/models.py:112-115 | an accepted item gives a valid record that the item describes |
| Models.FromItemComplete | src/shared/database/models.py:112-115 | every valid record an item describes is the record read from it |
| Models.RequiredFieldsAreRequired | src/shared/database/models.py:16-19 | an item with a required field (or a system field) missing or null is refused |
| Models.ToItem | src/shared/database/models.py:108-110 | the twelve keys, each field under its own name: a present field as its value, a `None` field (a required one an update cleared included) as null |
| Models.ItemRoundTrip | src/shared/database/models.py:108-115 | a valid record stored and read back is the same record |
| Models.NewRecord | src/shared/database/models.py:86-94 | the create fields unchanged, the given id, created_at == updated_at == now; valid iff the create data is |
| Models.NewRecordRevalidates | src/shared/database/models.py:86-94 | the new record passes the full model's validation |
| Models.PatchStr | src/shared/database/models.py:50-57 | an absent key leaves the field unset; a null sets it to None; a string sets it to that string |
| Models.PatchNum | src/shared/database/models.py:51-55 | the same for a number field |
| Models.PatchInt | src/shared/database/models.py:54-56 | the same for a whole-number field |
| Models.ParseUpdate | src/shared/database/models.py:48-71 | an accepted update meets every bound on each non-None field it sets, and sets exactly the keys present |
| Models.ParseUpdateComplete | src/shared/database/models.py:48-71 | every well-typed object within the bounds is accepted as the update it describes |
| Models.ParsedUpdateTouched | src/shared/database/models.py:98-99 | an accepted update sets some field iff the object holds one of the nine keys |
| Models.Changes | src/shared/database/models.py:98-99 | the assignment list is empty iff no field is set |
| Models.UpdateTimestamps | src/shared/database/models.py:96-106 | id and created_at never change; updated_at becomes now iff some field is set |
| Models.EmptyUpdateIsIdentity | src/shared/database/models.py:96-106 | an update with nothing set leaves the record as it was |
| Models.UpdateIdempotent | src/shared/database/models.py:96-106 | applying the same update twice at the same moment is applying it once |
| Models.UpdateKeepsValid | src/shared/database/models.py:96-104 | a valid update that clears no required field keeps a valid record valid |
| Models.UpdatePreservesValidity | src/shared/database/models.py:96-104 | a valid update keeps a valid record valid iff it clears no required field |
| Models.AssignAllAppend | src/shared/database/models.py:103-104 | performing two lists of assignments in turn is performing their concatenation |
| Models.ChangesApply | src/shared/database/models.py:98-104 | performing the assignments for the set fields, in order, gives the intended record (every set field changed, the others kept) |
| Models.Property.constructor | src/shared/database/models.py:79-83 | the object holds the given record |
| Models.Property.CreateNew | src/shared/database/models.py:86-94 | a fresh object holding the new record, which is valid |
| Models.Property.SetAttr | src/shared/database/models.py:104 | exactly the one assigned field changes |
| Models.Property.AssignEach | src/shared/database/models.py:103-104 | the object ends as the assignments performed in order |
| Models.Property.UpdateFields | src/shared/database/models.py:96-106 | returns the receiver itself, now holding the updated record: every set field changed, all others (id and created_at included) as before, and updated_at now only when some field was set |
| Models.Property.ToDynamoDbItem | src/shared/database/models.py:108-110 | the item `ToItem` gives for the object's record (null for a cleared required field), with the twelve keys; a valid object's item reads back as the same record |
| Models.Property.FromDynamoDbItem | src/shared/database/models.py:112-115 | an object iff the item validates; it is fresh, valid and holds the record read from the item |

## Left out

- JSON decoding and encoding: `json.loads` is the `parse` parameter. `json.dumps` is not modelled, so a response body is the value before encoding. With it go the serialiser hook, key order and `ensure_ascii`.
- Round2: binary floating point is not modelled. Python's `round(x, 2)` on a float can differ from exact half-even rounding of the true value by the float's representation error. Round2 is exact half-even rounding on rationals.
- Evaluate: float overflow, infinities and NaN are not modelled. A `unit_count` too large for a float makes `monthly_rent * unit_count` (`src/handlers/api/calculate/cash_flow.py:96`) raise `OverflowError`, which the source answers with the 500 response; an `Infinity` rent decoded by `json.loads` yields NaN figures in a 200 response. On exact reals both requests are `Calculated` with finite figures.
- MonthlyPayment: does not model the floating-point failure for a tiny positive rate, where `(1+r)**n - 1` can round to zero and raise ZeroDivisionError (which would become the 500 response). On rationals the denominator is always positive.
- `Decimal(str(v))` in the models' pre-validators depends on how floats print. Price and bathrooms are plain rationals.
- Pydantic's coercions are left out: numeric strings are not accepted as numbers, and booleans are not accepted as numbers. A number field accepts only a JSON number, and an integer field only a whole JSON number.
- Pydantic's field-level error list is left out. The cash-flow handler discards it (`src/handlers/api/calculate/cash_flow.py:86-91`). The property-create handler, which is not part of this model, joins each error's `loc: msg` into its message (`src/handlers/api/properties/create_property.py:71-79`).
- ParseCreate: a price or bathrooms value that `Decimal(str(v))` cannot read (a boolean, a list, an object or a non-numeric string) makes the `convert_to_decimal` pre-validator (`src/shared/database/models.py:38-42`) raise `decimal.InvalidOperation`. That is not a `ValueError`, so it escapes validation as itself, and a handler would answer 500 rather than 400. The model reports it as a plain refusal (`None`), the same as any other rejected field.
- ParseUpdate: the same holds for the update model's pre-validator (`src/shared/database/models.py:73-77`); a non-numeric price or bathrooms is reported as a refusal.
- FromItem: reads price and bathrooms through the same pre-validator, so the same non-numeric values are reported as a refusal rather than as the exception they raise.
- The logging, tracing and metrics decorators and calls are side-channel output.
- The clock (`datetime.now().isoformat()`) and `uuid.uuid4()` are parameters. `get_current_timestamp` (src/shared/utils/helpers.py:58-60) only reads the clock and is not modelled.
- Dictionary key order is not modelled: maps are unordered. The order of `setattr` calls is kept, as the assignment sequence.
- Helpers.CreateResponse: the in-place `default_headers.update(headers)` is modelled as a map override rather than a mutation, since the dictionary is local to the call.
- Helpers.CreateErrorResponse: adding `code` to the error dictionary is likewise modelled by building the map with or without it.
- Pydantic wraps a validator's ValueError in a ValidationError. The model keeps only the validator's outcome and message, as a `Checked` value.
- The I/O-only files are not part of this model: the health check, the database connection, the logger configuration and the property list and create handlers (only DynamoDB plumbing, a `min(limit, 100)` clamp and a message join).
- Test expectations that contradict the code are not modelled: `success` is False and an `errors` key in the cash-flow error bodies. The model follows the code.
