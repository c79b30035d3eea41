# Subscription contracts and recurring invoices — a Dafny model

This project models the billing core of an Odoo module for subscription
contracts: the pricing of contract lines (`subscription.contracts.line`) and
the contract itself (`subscription.contracts`) with its lifecycle actions,
naming on creation, contract total, bulk discount from the company's tier
margins, derived end and next-invoice dates, manual invoice generation, and
the periodic scheduler that moves contracts towards expiry and invoices the
ones that are due.

Layout:

- `wrappers.dfy` — `Option`, standing for an unset field or an empty record set.
- `calendar.dfy` — dates as day numbers (days since 1970-01-01), with
  `date_utils.add` for days, weeks, months and years. Months and years go
  through the civil (year, month, day) form of the proleptic Gregorian
  calendar and clamp the day to the end of the target month, as
  `relativedelta` does.
- `contract_line.dfy` — the line as a value and every line compute as a
  function: the margin-tier price, the list-price rule, the sub-total, the
  unit of measure and the description.
- `contracts.dfy` — the contract as a class whose fields the actions
  overwrite, the invoice ledger as a class holding the sequence of all
  invoices, the per-contract scheduler step and the scheduler loop over all
  contracts, plus the functions that specify them.

Representation choices: money and percentages are `real`; `today` is a
parameter; the ledger is a sequence of invoice records, each tagged with the
id of its originating contract, so an invoice count is a count over that
sequence; the company margin settings are a `Company` value passed in.
`amount_total`, `sub_total` and the unit of measure are functions of the
stored fields; `invoices_active`, a computed field that is not stored, is a
function of the contract and the ledger, so it is never stale; `price_unit` and `description` are stored (the source lets the
user edit them) and recomputed by explicit functions.

### Behaviour of the code worth knowing

- The line class defines `_compute_price_unit` twice
  (models/subscription_contract_line.py:57-68 and 95-99). The second
  definition replaces the first in the class body, so the price that takes
  effect is the product's list price. Both rules are modelled
  (`MarginPriceUnit`, `ComputePriceUnit`); `EffectivePriceShadowsMargin`
  exhibits a line on which they disagree.
- The scheduler's state writes overwrite every state, Cancelled included, and
  the invoicing test reads the state after those writes. A cancelled contract
  whose end date has passed therefore becomes Expired and is invoiced when its
  next invoice date is today (`CancelledPastEndIsInvoiced`).
- The scheduler does not advance `next_invoice_date`, so a second tick on the
  same day invoices the same contracts again (`SameDayTickInvoicesAgain`);
  the tick is not idempotent.
- A line without a product keeps its description (the compute skips it)
  rather than getting an empty one.
- The scheduler attaches one invoice line per contract line, after creating
  the invoice header.

## Model

| member | source | states |
|---|---|---|
| `SubscriptionContracts.PeriodCount` | models/subscription_contracts.py:202 | the period as a number: 12, 18 or 24, and 0 exactly when the period is unset |
| `SubscriptionContractLine.MarginPriceUnit` | models/subscription_contract_line.py:57-68 | with a period set, the price exceeds the base price by the tier's margin percent of the base; with no period it is the base price |
| `SubscriptionContractLine.MarginPriceExample` | models/subscription_contract_line.py:61-62 | base price 100 with a 10% margin on the 12 tier gives 110 |
| `SubscriptionContractLine.MarginPriceBounds` | models/subscription_contract_line.py:57-68 | a non-negative margin never lowers a non-negative base price |
| `SubscriptionContractLine.ComputePriceUnit` | models/subscription_contract_line.py:95-99 | the effective price rule: the product's list price (0 without a product), and no other field of the line changes |
| `SubscriptionContractLine.EffectivePriceIgnoresBase` | models/subscription_contract_line.py:95-99 | the effective price does not depend on the base price |
| `SubscriptionContractLine.EffectivePriceShadowsMargin` | models/subscription_contract_line.py:57-68 | on a line with list price 50, base 100 and a 10% margin, the effective rule gives 50 where the margin rule gives 110 |
| `SubscriptionContractLine.SubTotal` | models/subscription_contract_line.py:101-107 | the sub-total equals quantity times unit price times (1 - discount/100) |
| `SubscriptionContractLine.SubTotalAtDiscountExtremes` | models/subscription_contract_line.py:105-107 | a 0% discount gives quantity times price; a 100% discount gives 0 |
| `SubscriptionContractLine.SubTotalBounds` | models/subscription_contract_line.py:105-107 | with a discount in [0, 100] and non-negative quantity and price, 0 <= sub-total <= quantity times price |
| `SubscriptionContractLine.NoProductNoSubTotal` | models/subscription_contract_line.py:95-107 | a line without a product is priced 0 and so has sub-total 0 |
| `SubscriptionContractLine.ProductUom` | models/subscription_contract_line.py:89-93 | the unit of measure is present exactly when a product is, and is then the product's |
| `SubscriptionContractLine.ComputeDescription` | models/subscription_contract_line.py:79-87 | without a product the line is unchanged; with one its description becomes the product's sale description and nothing else changes |
| `SubscriptionContractLine.ComputeDescriptionIdempotent` | models/subscription_contract_line.py:79-87 | recomputing the description twice is the same as once |
| `SubscriptionContracts.AmountTotal` | models/subscription_contracts.py:158-163 | the contract total is 0 with no lines and a single line's sub-total for one line |
| `SubscriptionContracts.AmountTotalNonNegative` | models/subscription_contracts.py:158-163 | when no line has a negative sub-total, the contract total is not negative |
| `SubscriptionContracts.AmountTotalAppend` | models/subscription_contracts.py:158-163 | the total over two runs of lines is the sum of the two totals |
| `SubscriptionContracts.DiscountedLines` | models/subscription_contracts.py:165-175 | with a period set and a non-zero tier margin every discount becomes that margin; otherwise the lines are unchanged; no other field of any line changes |
| `SubscriptionContracts.WithDiscountTotal` | models/subscription_contracts.py:165-175 | after a bulk discount of m percent the contract total is the gross amount less m percent |
| `SubscriptionContracts.Contract.OverwriteDiscounts` | models/subscription_contracts.py:168-169 | the inner loop: every line's discount is overwritten, nothing else |
| `SubscriptionContracts.Contract.ApplyDiscountOnLines` | models/subscription_contracts.py:165-175 | the contract's lines become `DiscountedLines` of the old lines for the contract's period and company |
| `SubscriptionContracts.EndDate` | models/subscription_contracts.py:206-221 | Days adds the period in days, Weeks adds 7 times the period in days, Months adds calendar months, every other interval (unset included) adds years |
| `SubscriptionContracts.EndDateWithoutPeriod` | models/subscription_contracts.py:202-221 | with no period the end date is the start date, whatever the interval (for Months and Years on round-tripping dates) |
| `SubscriptionContracts.EndDateTwelveMonths` | models/subscription_contracts.py:214-217 | start 2024-01-01 with 12 Months ends 2025-01-01 |
| `SubscriptionContracts.Contract.ComputeNextInvoiceDate` | models/subscription_contracts.py:195-221 | the next invoice date is the start plus the invoice interval in days, whatever the period unit; the end date is `EndDate` |
| `Calendar.AddZero` | models/subscription_contracts.py:214-221 | adding zero months or zero years to a date gives it back |
| `Calendar.AddMonthsYearLater` | models/subscription_contracts.py:214-217 | 2024-01-01 plus 12 months is 2025-01-01 |
| `Calendar.AddMonthsClampsToMonthEnd` | models/subscription_contracts.py:214-217 | 2024-01-31 plus one month is clamped to 2024-02-29 |
| `SubscriptionContracts.TickState` | models/subscription_contracts.py:227-238 | a passed end date gives Expired; otherwise a date within the reminder window gives Expire Soon; otherwise the state is kept, and these writes overwrite Cancelled too |
| `SubscriptionContracts.TickStateIdempotent` | models/subscription_contracts.py:235-238 | a second tick on the same day leaves the state where the first put it |
| `SubscriptionContracts.TickStateTargets` | models/subscription_contracts.py:235-238 | the tick only moves a contract to Expire Soon or Expired, or leaves it |
| `SubscriptionContracts.SameDayTickInvoicesAgain` | models/subscription_contracts.py:234-239 | a contract invoiced by a tick is due again on a second tick that day |
| `SubscriptionContracts.CancelledPastEndIsInvoiced` | models/subscription_contracts.py:235-239 | a cancelled contract past its end date becomes Expired and is invoiced when its next invoice date is today |
| `SubscriptionContracts.CancelledBeforeWarningIsSkipped` | models/subscription_contracts.py:235-239 | a cancelled contract before its reminder window stays Cancelled and is not invoiced |
| `SubscriptionContracts.InvoiceLines` | models/subscription_contracts.py:247-257 | one invoice line per contract line, in order, copying product, description, quantity, price, taxes and discount |
| `SubscriptionContracts.CountFor` | models/subscription_contracts.py:258-259 | the invoice count is at most the ledger size, and is 0 exactly when no invoice has this contract as origin |
| `SubscriptionContracts.CountForAppendOne` | models/subscription_contracts.py:136-137 | appending an invoice raises its own origin's count by one and leaves every other count alone |
| `SubscriptionContracts.CountForAppend` | models/subscription_contracts.py:258-259 | counting over two runs of invoices adds up |
| `SubscriptionContracts.AssignedName` | models/subscription_contracts.py:276-285 | a supplied name other than "/" is kept; a missing name or "/" becomes the sequence value, or "/" when the sequence yields nothing; such a name is never empty |
| `SubscriptionContracts.AssignedNameStable` | models/subscription_contracts.py:276-285 | a name assigned on creation other than "/" survives being supplied again, whatever the sequence then yields |
| `SubscriptionContracts.Contract.Create` | models/subscription_contracts.py:276-285 | a new contract is New and unlocked, named by `AssignedName`, with derived dates and the ledger's count for its id |
| `SubscriptionContracts.Contract.ActionToConfirm` | models/subscription_contracts.py:111-113 | from any state the contract becomes Ongoing; only the state changes |
| `SubscriptionContracts.Contract.ActionToCancel` | models/subscription_contracts.py:115-117 | from any state the contract becomes Cancelled; only the state changes |
| `SubscriptionContracts.Contract.ActionLock` | models/subscription_contracts.py:139-141 | the lock flag is set; only the lock changes |
| `SubscriptionContracts.Contract.ActionToUnlock` | models/subscription_contracts.py:143-145 | the lock flag is cleared; only the lock changes |
| `SubscriptionContracts.Contract.ComputeInvoiceCount` | models/subscription_contracts.py:177-182 | the invoice count is the ledger count for this contract |
| `SubscriptionContracts.Contract.InvoicesActive` | models/subscription_contracts.py:184-193 | the invoices-active flag, read afresh from the ledger, is true iff the ledger holds an invoice from this contract |
| `SubscriptionContracts.Contract.ActionGenerateInvoice` | models/subscription_contracts.py:119-137 | exactly one invoice mirroring the contract lines is appended; the invoice count becomes the ledger count, one more than before; afterwards the invoices-active flag reads true |
| `SubscriptionContracts.Ledger.Issue` | models/subscription_contracts.py:240-257 | the ledger gains one invoice at its end: the given header followed by one invoice line per contract line, in order; earlier invoices are untouched |
| `SubscriptionContracts.Contract.ScheduledTick` | models/subscription_contracts.py:228-259 | the state becomes `TickState`; when due, exactly one invoice with the contract's lines is appended, the count refreshed and the invoices-active flag reads true; otherwise ledger and count are unchanged |
| `SubscriptionContracts.TickEach` | models/subscription_contracts.py:227-259 | every contract ends in `TickState`; the ledger gains exactly the due contracts' invoices in visiting order; each due contract's count equals its final ledger count; nothing else changes |
| `SubscriptionContracts.DueCountsRise` | models/subscription_contracts.py:223-259 | with distinct ids, appending the invoices of one pass raises each due contract's ledger count by exactly one |
| `SubscriptionContracts.SubscriptionContractStateChange` | models/subscription_contracts.py:223-259 | the whole job over all contracts: everything `TickEach` guarantees, and each due contract's count ends one above its ledger count before the tick |
| `SubscriptionContracts.EmittedOrigins` | models/subscription_contracts.py:223-259 | every invoice one scheduler pass issues has as origin one of the contracts it visits |
| `SubscriptionContracts.EmittedOncePerDueContract` | models/subscription_contracts.py:223-259 | with distinct contract ids, one pass issues exactly one invoice for each due contract and none for a contract that is not due |

## Left out

- ORM machinery: `@api.depends` triggering, `search`, `search_count` (modelled by `CountFor`), `ir.sequence` (its next value is a parameter), `mail.thread` tracking, field labels and help texts.
- `action_get_invoice`: it only returns a window action for the user interface.
- `_compute_sale_order_lines`: it searches and re-links sale order lines of other models; it is not billing logic.
- `total_margin`: the field names a compute method that the source does not define.
- Fields that no modelled logic reads: `type`, `currency_id`, `note`, `sale_order_line_ids`, `current_reference`. The invoice's `move_type` is always a customer invoice and is not a field of `Invoice`.
- `company_id`: the company's margin settings are passed in as a `Company` value; the company model that holds `marge_12`, `marge_18` and `marge_24` is not part of this model.
- `apply_discount_on_lines` on a multi-record set: the model applies it to one contract, whose company supplies the margins.
- The partner language and `get_product_multiline_description_sale`: the product's sale description is an opaque product attribute.
- Float rounding and precision: money and percentages are exact reals.
- Unset dates: `date_start` and `date_end` are always set (the source fails on an unset one in date arithmetic).
- The date range: dates are unbounded day numbers, while the source's dates only run from year 1 to 9999 and its date arithmetic raises outside that range. A huge `recurring_invoice` or period therefore aborts the date compute (models/subscription_contracts.py:204-221), and a huge `contract_reminder` (or an end date near either bound) aborts the whole scheduler pass at the expiry-warning subtraction (models/subscription_contracts.py:230-232), leaving later contracts unvisited; in the model `TickState` returns a state and `SubscriptionContractStateChange` always visits every contract.
- The transient `next_invoice_date = today` write at the start of the date compute: it is overwritten before the compute ends.
- A `name` key supplied with a non-text value on creation: names are text or absent.
- `fields.Date.today()`: `today` is a parameter.
- SubscriptionContracts.Contract.Create: the creation defaults are not modelled; every field except `state` and `lock` is a parameter. Those two start as New and false, and a value supplied for them on creation is not modelled. The interval defaults to Months (models/subscription_contracts.py:56), so a contract created without one ends after N months, while an interval the model receives as unset takes the Years branch of `EndDate`. `date_start` defaults to the value of `fields.Date.today()` computed once when the class is defined (models/subscription_contracts.py:72), so an omitted start date is the date the server loaded the module, not the creation date.
- Concurrency, per-record locking, retries and per-contract fault tolerance in the scheduler: the source has none of them.
- SubscriptionContracts.EndDateWithoutPeriod: for the Days and Weeks units it holds for every date; for the other units it holds for dates whose civil form round-trips (`Calendar.RoundTrips`, true of every date but not proved), because the Gregorian calendar conversion itself is not verified.
- Calendar.AddZero: likewise stated for dates whose civil form round-trips.
