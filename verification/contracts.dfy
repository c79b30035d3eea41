/**
 * Subscription contracts (`subscription.contracts`): lifecycle actions,
 * naming on creation, the contract total, the bulk discount from the tier
 * margin, the end and next-invoice dates, invoice generation and the periodic
 * scheduler that moves contracts towards expiry and invoices those that are
 * due.
 *
 * A contract is an object whose fields the actions overwrite; the invoice
 * ledger is an object holding the sequence of all invoices, each tagged with
 * the id of the contract it originates from. Derived fields that the code
 * never writes directly (`amount_total`) are functions of the stored fields.
 */
module SubscriptionContracts {
  import opened Wrappers
  import opened Calendar
  import opened SubscriptionContractLine

  type ContractId = nat
  type PartnerId = nat

  /** Lifecycle stage of a contract. */
  datatype State = New | Ongoing | ExpireSoon | Expired | Cancelled

  /** Unit in which the recurring period is counted to find the end date. */
  datatype Interval = Days | Weeks | Months | Years

  /** One invoice line, copied from a contract line. */
  datatype InvoiceLine = InvoiceLine(
    product: Option<ProductId>,
    name: string,
    quantity: real,
    priceUnit: real,
    taxes: set<TaxId>,
    discount: real)

  /** A customer invoice in the ledger; `origin` is the id of the contract that issued it. */
  datatype Invoice = Invoice(
    partner: Option<PartnerId>,
    invoiceDate: Date,
    origin: ContractId,
    lines: seq<InvoiceLine>)

  // ---------------------------------------------------------------------------
  // Contract total

  /** The contract total: the sum of the lines' sub-totals. */
  function AmountTotal(lines: seq<Line>): (r: real)
    ensures lines == [] ==> r == 0.0
    ensures |lines| == 1 ==> r == SubTotal(lines[0])
  {
    if lines == [] then 0.0 else SubTotal(lines[0]) + AmountTotal(lines[1..])
  }

  /** When no line has a negative sub-total, neither does the contract. */
  lemma {:induction false} AmountTotalNonNegative(lines: seq<Line>)
    requires forall i :: 0 <= i < |lines| ==> SubTotal(lines[i]) >= 0.0
    ensures AmountTotal(lines) >= 0.0
  {
    if lines != [] {
      assert forall i :: 0 <= i < |lines[1..]| ==> lines[1..][i] == lines[i + 1];
      AmountTotalNonNegative(lines[1..]);
    }
  }

  /** The total of two runs of lines is the sum of their totals. */
  lemma {:induction false} AmountTotalAppend(a: seq<Line>, b: seq<Line>)
    ensures AmountTotal(a + b) == AmountTotal(a) + AmountTotal(b)
  {
    if a != [] {
      assert (a + b)[1..] == a[1..] + b;
      AmountTotalAppend(a[1..], b);
    } else {
      assert a + b == b;
    }
  }

  /** The undiscounted amount of the lines: the sum of quantity times unit price. */
  function GrossAmount(lines: seq<Line>): real {
    if lines == [] then 0.0 else lines[0].qtyOrdered * lines[0].priceUnit + GrossAmount(lines[1..])
  }

  // ---------------------------------------------------------------------------
  // Bulk discount from the tier margin

  /** Every line with its discount set to `m`, nothing else changed. */
  function WithDiscount(lines: seq<Line>, m: real): (r: seq<Line>)
    ensures |r| == |lines|
    ensures forall i :: 0 <= i < |r| ==> r[i] == lines[i].(discount := m)
  {
    seq(|lines|, i requires 0 <= i < |lines| => lines[i].(discount := m))
  }

  /**
   * The lines after `apply_discount_on_lines`: when the contract's period is
   * set and the company margin of that tier is non-zero, every discount
   * becomes that margin; otherwise the lines are unchanged. No other field of
   * any line changes.
   */
  function DiscountedLines(lines: seq<Line>, period: Option<Period>, company: Company): (r: seq<Line>)
    ensures |r| == |lines|
    ensures period.Some? && TierMargin(company, period.value) != 0.0 ==>
      forall i :: 0 <= i < |r| ==> r[i].discount == TierMargin(company, period.value)
    ensures period.None? || TierMargin(company, period.value) == 0.0 ==> r == lines
    ensures forall i :: 0 <= i < |r| ==> r[i].(discount := lines[i].discount) == lines[i]
  {
    if period.Some? && TierMargin(company, period.value) != 0.0
    then WithDiscount(lines, TierMargin(company, period.value))
    else lines
  }

  /** A line whose discount is set to `m` percent has as sub-total its gross amount less `m` percent. */
  lemma SubTotalWithDiscount(line: Line, m: real)
    ensures SubTotal(line.(discount := m)) == line.qtyOrdered * line.priceUnit * (1.0 - m / 100.0)
  {
  }

  /** Two amounts scaled by the same factor add up to their sum scaled by it. */
  lemma ScaleSum(x: real, y: real, g: real, rest: real, k: real)
    requires x == g * k && y == rest * k
    ensures x + y == (g + rest) * k
  {
  }

  /** After a bulk discount of `m` percent, the contract total is the gross amount less `m` percent. */
  lemma {:induction false} WithDiscountTotal(lines: seq<Line>, m: real)
    ensures AmountTotal(WithDiscount(lines, m)) == GrossAmount(lines) * (1.0 - m / 100.0)
  {
    if lines != [] {
      var d := WithDiscount(lines, m);
      assert d[1..] == WithDiscount(lines[1..], m);
      WithDiscountTotal(lines[1..], m);
      assert d[0] == lines[0].(discount := m);
      SubTotalWithDiscount(lines[0], m);
      ScaleSum(SubTotal(d[0]), AmountTotal(d[1..]), lines[0].qtyOrdered * lines[0].priceUnit,
        GrossAmount(lines[1..]), 1.0 - m / 100.0);
    } else {
      assert WithDiscount(lines, m) == [];
    }
  }

  // ---------------------------------------------------------------------------
  // Dates

  /** The period as a number, with an unset period read as 0. */
  function PeriodCount(period: Option<Period>): (n: nat)
    ensures n == 0 <==> period.None?
    ensures period == Some(P12) ==> n == 12
    ensures period == Some(P18) ==> n == 18
    ensures period == Some(P24) ==> n == 24
  {
    match period
    case None => 0
    case Some(P12) => 12
    case Some(P18) => 18
    case Some(P24) => 24
  }

  /**
   * The end date: the start date plus the recurring period (0 when unset)
   * counted in the chosen unit. Days and weeks are day offsets; months are
   * calendar months; every other interval, unset included, counts years.
   */
  function EndDate(dateStart: Date, period: Option<Period>, interval: Option<Interval>): (r: Date)
    ensures interval == Some(Days) ==> r == dateStart + PeriodCount(period)
    ensures interval == Some(Weeks) ==> r == dateStart + 7 * PeriodCount(period)
    ensures interval == Some(Months) ==> r == AddMonths(dateStart, PeriodCount(period))
    ensures interval != Some(Days) && interval != Some(Weeks) && interval != Some(Months) ==>
      r == AddYears(dateStart, PeriodCount(period))
  {
    var n := PeriodCount(period);
    match interval
    case Some(Days) => AddDays(dateStart, n)
    case Some(Weeks) => AddWeeks(dateStart, n)
    case Some(Months) => AddMonths(dateStart, n)
    case _ => AddYears(dateStart, n)
  }

  /** With no period set, the end date is the start date, whatever the interval. */
  lemma EndDateWithoutPeriod(dateStart: Date, interval: Option<Interval>)
    requires interval == Some(Days) || interval == Some(Weeks) || RoundTrips(dateStart)
    ensures EndDate(dateStart, None, interval) == dateStart
  {
    if interval != Some(Days) && interval != Some(Weeks) {
      AddZero(dateStart);
    }
  }

  /** A contract starting on 1 January 2024 with a 12-month period ends on 1 January 2025. */
  lemma EndDateTwelveMonths()
    ensures EndDate(DaysFromCivil(Civil(2024, 1, 1)), Some(P12), Some(Months)) == DaysFromCivil(Civil(2025, 1, 1))
  {
    AddMonthsYearLater();
  }

  // ---------------------------------------------------------------------------
  // Scheduler decisions

  /**
   * The state a contract ends the scheduler tick in. The expiry-warning write
   * comes first and the expiry write second, so a passed end date wins; both
   * writes overwrite whatever state the contract had, Cancelled included.
   */
  function TickState(state: State, dateEnd: Date, reminder: int, today: Date): (r: State)
    ensures dateEnd < today ==> r == Expired
    ensures dateEnd - reminder <= today <= dateEnd ==> r == ExpireSoon
    ensures !(dateEnd < today) && !(dateEnd - reminder <= today <= dateEnd) ==> r == state
  {
    var expiryWarningDate := AddDays(dateEnd, -reminder);
    var afterWarning := if expiryWarningDate <= today <= dateEnd then ExpireSoon else state;
    if dateEnd < today then Expired else afterWarning
  }

  /** A second tick on the same day leaves the state where the first one put it. */
  lemma TickStateIdempotent(state: State, dateEnd: Date, reminder: int, today: Date)
    ensures TickState(TickState(state, dateEnd, reminder, today), dateEnd, reminder, today)
         == TickState(state, dateEnd, reminder, today)
  {
  }

  /** The tick only ever moves a contract to Expire Soon or Expired, or leaves it. */
  lemma TickStateTargets(state: State, dateEnd: Date, reminder: int, today: Date)
    ensures TickState(state, dateEnd, reminder, today) in {state, ExpireSoon, Expired}
  {
  }

  /** The invoicing condition of the tick, on the state after the tick's writes. */
  predicate Due(nextInvoiceDate: Date, stateAfter: State, today: Date) {
    nextInvoiceDate == today && stateAfter != Cancelled
  }

  /**
   * The next invoice date is not advanced, so a contract that was invoiced by
   * a tick is invoiced again by a second tick on the same day.
   */
  lemma SameDayTickInvoicesAgain(nextInvoiceDate: Date, state: State, dateEnd: Date, reminder: int, today: Date)
    requires Due(nextInvoiceDate, TickState(state, dateEnd, reminder, today), today)
    ensures Due(nextInvoiceDate, TickState(TickState(state, dateEnd, reminder, today), dateEnd, reminder, today), today)
  {
    TickStateIdempotent(state, dateEnd, reminder, today);
  }

  /**
   * A cancelled contract whose end date has passed is moved to Expired and,
   * when its next invoice date is today, invoiced.
   */
  lemma CancelledPastEndIsInvoiced(nextInvoiceDate: Date, dateEnd: Date, reminder: int, today: Date)
    requires dateEnd < today && nextInvoiceDate == today
    ensures TickState(Cancelled, dateEnd, reminder, today) == Expired
    ensures Due(nextInvoiceDate, TickState(Cancelled, dateEnd, reminder, today), today)
  {
  }

  /** A cancelled contract whose end date is not near is left Cancelled and never invoiced. */
  lemma CancelledBeforeWarningIsSkipped(nextInvoiceDate: Date, dateEnd: Date, reminder: int, today: Date)
    requires today < dateEnd - reminder && today <= dateEnd
    ensures TickState(Cancelled, dateEnd, reminder, today) == Cancelled
    ensures !Due(nextInvoiceDate, TickState(Cancelled, dateEnd, reminder, today), today)
  {
  }

  // ---------------------------------------------------------------------------
  // Invoices and the ledger

  /** The invoice line copied from one contract line. */
  function InvoiceLineOf(line: Line): InvoiceLine {
    InvoiceLine(
      if line.product.Some? then Some(line.product.value.id) else None,
      line.description, line.qtyOrdered, line.priceUnit, line.taxes, line.discount)
  }

  /** The invoice lines for a run of contract lines: one per contract line, in order. */
  function InvoiceLines(lines: seq<Line>): (r: seq<InvoiceLine>)
    ensures |r| == |lines|
    ensures forall i :: 0 <= i < |lines| ==> r[i] == InvoiceLineOf(lines[i])
  {
    if lines == [] then [] else InvoiceLines(lines[..|lines| - 1]) + [InvoiceLineOf(lines[|lines| - 1])]
  }

  /** The number of invoices in the ledger whose origin is contract `id`. */
  function CountFor(invoices: seq<Invoice>, id: ContractId): (n: nat)
    ensures n <= |invoices|
    ensures n == 0 <==> forall i :: 0 <= i < |invoices| ==> invoices[i].origin != id
  {
    if invoices == [] then 0
    else CountFor(invoices[..|invoices| - 1], id) + (if invoices[|invoices| - 1].origin == id then 1 else 0)
  }

  /** Appending one invoice raises the count of its own origin by one and leaves every other count alone. */
  lemma CountForAppendOne(invoices: seq<Invoice>, inv: Invoice, id: ContractId)
    ensures CountFor(invoices + [inv], id) == CountFor(invoices, id) + (if inv.origin == id then 1 else 0)
  {
    assert (invoices + [inv])[..|invoices|] == invoices;
  }

  /** `CountForAppendOne` for every id other than the appended invoice's origin at once. */
  lemma CountForAppendOthers(invoices: seq<Invoice>, inv: Invoice)
    ensures forall other :: other != inv.origin ==> CountFor(invoices + [inv], other) == CountFor(invoices, other)
  {
    forall other | other != inv.origin
      ensures CountFor(invoices + [inv], other) == CountFor(invoices, other)
    {
      CountForAppendOne(invoices, inv, other);
    }
  }

  /** Counting over two runs of invoices adds up. */
  lemma {:induction false} CountForAppend(a: seq<Invoice>, b: seq<Invoice>, id: ContractId)
    ensures CountFor(a + b, id) == CountFor(a, id) + CountFor(b, id)
  {
    if b != [] {
      var b' := b[..|b| - 1];
      assert a + b == (a + b') + [b[|b| - 1]];
      CountForAppend(a, b', id);
      CountForAppendOne(a + b', b[|b| - 1], id);
      CountForAppendOne(b', b[|b| - 1], id);
      assert b == b' + [b[|b| - 1]];
    } else {
      assert a + b == a;
    }
  }

  // ---------------------------------------------------------------------------
  // Naming on creation

  /**
   * The name a new contract is stored with. A supplied name other than "/" is
   * kept; a missing name or "/" is replaced by the next sequence value, or
   * stays "/" when the sequence yields nothing (no value or an empty one).
   */
  function AssignedName(name: Option<string>, sequenceNext: Option<string>): (r: string)
    ensures name.Some? && name.value != "/" ==> r == name.value
    ensures (name.None? || name.value == "/") ==>
      r == (if sequenceNext.Some? && sequenceNext.value != "" then sequenceNext.value else "/")
    ensures (name.None? || name.value == "/") ==> r != ""
  {
    var requested := if name.Some? then name.value else "/";
    if requested == "/" then
      (if sequenceNext.Some? && sequenceNext.value != "" then sequenceNext.value else "/")
    else requested
  }

  /** A name assigned on creation other than "/" is kept if it is supplied again. */
  lemma AssignedNameStable(name: Option<string>, sequenceNext: Option<string>, laterNext: Option<string>)
    requires AssignedName(name, sequenceNext) != "/"
    ensures AssignedName(Some(AssignedName(name, sequenceNext)), laterNext) == AssignedName(name, sequenceNext)
  {
  }

  // ---------------------------------------------------------------------------
  // The ledger and the contract objects

  /** The invoice ledger: every invoice issued so far, oldest first. */
  class Ledger {
    var invoices: seq<Invoice>

    constructor ()
      ensures invoices == []
    {
      invoices := [];
    }

    /**
     * Issue an invoice: append its header, then attach to it one invoice line
     * per contract line, in order.
     */
    method Issue(header: Invoice, lines: seq<Line>)
      modifies this`invoices
      ensures invoices == old(invoices) + [header.(lines := header.lines + InvoiceLines(lines))]
    {
      invoices := invoices + [header];
      var last := |invoices| - 1;
      assert header.lines + InvoiceLines(lines[..0]) == header.lines;
      for j := 0 to |lines|
        invariant invoices == old(invoices) + [header.(lines := header.lines + InvoiceLines(lines[..j]))]
      {
        var inv := invoices[last];
        assert lines[..j + 1][..j] == lines[..j];
        assert InvoiceLines(lines[..j + 1]) == InvoiceLines(lines[..j]) + [InvoiceLineOf(lines[j])];
        assert inv.lines + [InvoiceLineOf(lines[j])] == header.lines + InvoiceLines(lines[..j + 1]);
        invoices := invoices[last := inv.(lines := inv.lines + [InvoiceLineOf(lines[j])])];
      }
      assert lines[..|lines|] == lines;
    }
  }

  class Contract {
    const id: ContractId
    var name: string
    var partner: Option<PartnerId>
    var recurringPeriod: Option<Period>
    var recurringPeriodInterval: Option<Interval>
    var contractReminder: int
    var recurringInvoice: int
    var dateStart: Date
    var dateEnd: Date
    var nextInvoiceDate: Date
    var lock: bool
    var state: State
    var lines: seq<Line>
    var invoiceCount: nat

    /** The end and next-invoice dates agree with the start date, the period and the intervals. */
    ghost predicate DatesDerived()
      reads this
    {
      nextInvoiceDate == dateStart + recurringInvoice
      && dateEnd == EndDate(dateStart, recurringPeriod, recurringPeriodInterval)
    }

    /** The state this contract ends the scheduler tick of day `today` in. */
    function NextState(today: Date): State
      reads this`state, this`dateEnd, this`contractReminder
    {
      TickState(state, dateEnd, contractReminder, today)
    }

    /** Whether the scheduler tick of day `today` invoices this contract. */
    predicate IsDue(today: Date)
      reads this`nextInvoiceDate, this`state, this`dateEnd, this`contractReminder
    {
      Due(nextInvoiceDate, NextState(today), today)
    }

    /** The invoice this contract issues on day `today`: its partner, and one line per contract line. */
    function InvoiceOf(today: Date): Invoice
      reads this`partner, this`lines
    {
      Invoice(partner, today, id, InvoiceLines(lines))
    }

    /**
     * Creation: a new contract starts New and unlocked, its name is assigned
     * by `AssignedName`, its dates are derived and its invoice count is read
     * from the ledger.
     */
    constructor Create(
      id: ContractId, name: Option<string>, sequenceNext: Option<string>,
      partner: Option<PartnerId>, recurringPeriod: Option<Period>,
      recurringPeriodInterval: Option<Interval>, contractReminder: int,
      recurringInvoice: int, dateStart: Date, lines: seq<Line>, ledger: Ledger)
      ensures this.id == id && this.name == AssignedName(name, sequenceNext)
      ensures this.partner == partner && this.recurringPeriod == recurringPeriod
      ensures this.recurringPeriodInterval == recurringPeriodInterval
      ensures this.contractReminder == contractReminder && this.recurringInvoice == recurringInvoice
      ensures this.dateStart == dateStart && this.lines == lines
      ensures state == New && !lock
      ensures DatesDerived()
      ensures invoiceCount == CountFor(ledger.invoices, id)
      ensures InvoicesActive(ledger) <==> invoiceCount != 0
    {
      this.id := id;
      this.name := AssignedName(name, sequenceNext);
      this.partner := partner;
      this.recurringPeriod := recurringPeriod;
      this.recurringPeriodInterval := recurringPeriodInterval;
      this.contractReminder := contractReminder;
      this.recurringInvoice := recurringInvoice;
      this.dateStart := dateStart;
      this.lines := lines;
      nextInvoiceDate := AddDays(dateStart, recurringInvoice);
      dateEnd := EndDate(dateStart, recurringPeriod, recurringPeriodInterval);
      state := New;
      lock := false;
      invoiceCount := CountFor(ledger.invoices, id);
    }

    /** Confirm: the contract becomes Ongoing, from any state. */
    method ActionToConfirm()
      modifies this`state
      ensures state == Ongoing
    {
      state := Ongoing;
    }

    /** Cancel: the contract becomes Cancelled, from any state. */
    method ActionToCancel()
      modifies this`state
      ensures state == Cancelled
    {
      state := Cancelled;
    }

    /** Lock: set the lock flag; the state is not touched. */
    method ActionLock()
      modifies this`lock
      ensures lock
    {
      lock := true;
    }

    /** Unlock: clear the lock flag; the state is not touched. */
    method ActionToUnlock()
      modifies this`lock
      ensures !lock
    {
      lock := false;
    }

    /** Overwrite the discount of every line with `m`, one line at a time. */
    method OverwriteDiscounts(m: real)
      modifies this`lines
      ensures lines == WithDiscount(old(lines), m)
    {
      var i := 0;
      while i < |lines|
        invariant 0 <= i <= |lines| == |old(lines)|
        invariant forall k :: 0 <= k < i ==> lines[k] == old(lines)[k].(discount := m)
        invariant forall k :: i <= k < |lines| ==> lines[k] == old(lines)[k]
      {
        lines := lines[i := lines[i].(discount := m)];
        i := i + 1;
      }
    }

    /**
     * Apply the company margin of the contract's period tier as the discount
     * of every line, when that margin is non-zero.
     */
    method ApplyDiscountOnLines(company: Company)
      modifies this`lines
      ensures lines == DiscountedLines(old(lines), recurringPeriod, company)
    {
      if recurringPeriod == Some(P12) && company.marge12 != 0.0 {
        OverwriteDiscounts(company.marge12);
      }
      if recurringPeriod == Some(P18) && company.marge18 != 0.0 {
        OverwriteDiscounts(company.marge18);
      }
      if recurringPeriod == Some(P24) && company.marge24 != 0.0 {
        OverwriteDiscounts(company.marge24);
      }
    }

    /**
     * Derive the dates: the next invoice date is the start date plus the
     * invoice interval in days, whatever the period unit; the end date is the
     * start date plus the period in its unit.
     */
    method ComputeNextInvoiceDate()
      modifies this`nextInvoiceDate, this`dateEnd
      ensures nextInvoiceDate == dateStart + recurringInvoice
      ensures dateEnd == EndDate(dateStart, recurringPeriod, recurringPeriodInterval)
      ensures DatesDerived()
    {
      nextInvoiceDate := AddDays(dateStart, recurringInvoice);
      var n := PeriodCount(recurringPeriod);
      if recurringPeriodInterval == Some(Days) {
        dateEnd := AddDays(dateStart, n);
      } else if recurringPeriodInterval == Some(Weeks) {
        dateEnd := AddWeeks(dateStart, n);
      } else if recurringPeriodInterval == Some(Months) {
        dateEnd := AddMonths(dateStart, n);
      } else {
        dateEnd := AddYears(dateStart, n);
      }
    }

    /** Refresh the invoice count: the number of ledger invoices from this contract. */
    method ComputeInvoiceCount(ledger: Ledger)
      modifies this`invoiceCount
      ensures invoiceCount == CountFor(ledger.invoices, id)
    {
      invoiceCount := CountFor(ledger.invoices, id);
    }

    /**
     * The invoices-active flag. It is computed and not stored, so every read
     * asks the ledger afresh: true iff some invoice originates from this
     * contract.
     */
    function InvoicesActive(ledger: Ledger): (active: bool)
      reads this, ledger
      ensures active <==> exists i :: 0 <= i < |ledger.invoices| && ledger.invoices[i].origin == id
    {
      CountFor(ledger.invoices, id) != 0
    }

    /**
     * Generate an invoice now: append one invoice mirroring the contract
     * lines, then refresh the invoice count, which grows by one.
     */
    method ActionGenerateInvoice(ledger: Ledger, today: Date)
      modifies ledger`invoices, this`invoiceCount
      ensures ledger.invoices == old(ledger.invoices) + [InvoiceOf(today)]
      ensures invoiceCount == CountFor(ledger.invoices, id) == CountFor(old(ledger.invoices), id) + 1
      ensures InvoicesActive(ledger)
    {
      CountForAppendOne(ledger.invoices, InvoiceOf(today), id);
      ledger.invoices := ledger.invoices + [Invoice(partner, today, id, InvoiceLines(lines))];
      invoiceCount := CountFor(ledger.invoices, id);
    }

    /**
     * One contract's step of the scheduler: the expiry-warning and expiry
     * writes, then, when the next invoice date is today and the contract is
     * not Cancelled, an invoice header followed by one line per contract
     * line, and a refreshed invoice count. Nothing else changes.
     */
    method ScheduledTick(ledger: Ledger, today: Date)
      modifies this`state, this`invoiceCount, ledger`invoices
      ensures state == TickState(old(state), dateEnd, contractReminder, today)
      ensures ledger.invoices == old(ledger.invoices) + (if old(IsDue(today)) then [InvoiceOf(today)] else [])
      ensures invoiceCount == if old(IsDue(today)) then CountFor(ledger.invoices, id) else old(invoiceCount)
      ensures old(IsDue(today)) ==> InvoicesActive(ledger)
      ensures forall other :: other != id ==> CountFor(ledger.invoices, other) == CountFor(old(ledger.invoices), other)
    {
      var expiryWarningDate := AddDays(dateEnd, -contractReminder);
      if expiryWarningDate <= today <= dateEnd {
        state := ExpireSoon;
      }
      if dateEnd < today {
        state := Expired;
      }
      assert state == TickState(old(state), dateEnd, contractReminder, today);
      if nextInvoiceDate == today && state != Cancelled {
        var header := Invoice(partner, today, id, []);
        ledger.Issue(header, lines);
        assert header.(lines := [] + InvoiceLines(lines)) == InvoiceOf(today);
        invoiceCount := CountFor(ledger.invoices, id);
        CountForAppendOne(old(ledger.invoices), InvoiceOf(today), id);
        CountForAppendOthers(old(ledger.invoices), InvoiceOf(today));
      }
    }
  }

  // ---------------------------------------------------------------------------
  // The periodic scheduler

  /** The invoices the scheduler issues for `contracts`, in the order it visits them. */
  ghost function Emitted(contracts: seq<Contract>, today: Date): seq<Invoice>
    reads contracts`nextInvoiceDate, contracts`state, contracts`dateEnd, contracts`contractReminder
    reads contracts`partner, contracts`lines
  {
    if contracts == [] then []
    else
      var c := contracts[|contracts| - 1];
      Emitted(contracts[..|contracts| - 1], today) + (if c.IsDue(today) then [c.InvoiceOf(today)] else [])
  }

  /** Every invoice the scheduler issues originates from one of the contracts it visits. */
  lemma {:induction false} EmittedOrigins(contracts: seq<Contract>, today: Date)
    ensures forall inv :: inv in Emitted(contracts, today) ==>
      exists k :: 0 <= k < |contracts| && contracts[k].id == inv.origin
  {
    if contracts != [] {
      var n := |contracts| - 1;
      EmittedOrigins(contracts[..n], today);
      forall inv | inv in Emitted(contracts, today)
        ensures exists k :: 0 <= k < |contracts| && contracts[k].id == inv.origin
      {
        if inv in Emitted(contracts[..n], today) {
          var k :| 0 <= k < n && contracts[..n][k].id == inv.origin;
          assert contracts[k].id == inv.origin;
        } else {
          assert contracts[n].id == inv.origin;
        }
      }
    }
  }

  /** One more contract visited adds its invoice, if it is due, after the earlier ones. */
  lemma EmittedSnoc(contracts: seq<Contract>, today: Date)
    requires contracts != []
    ensures var last := contracts[|contracts| - 1];
      Emitted(contracts, today)
        == Emitted(contracts[..|contracts| - 1], today) + (if last.IsDue(today) then [last.InvoiceOf(today)] else [])
  {
  }

  /** A contract id that none of the visited contracts carries has no invoice among those issued. */
  lemma EmittedAvoids(contracts: seq<Contract>, today: Date, id: ContractId)
    requires forall j :: 0 <= j < |contracts| ==> contracts[j].id != id
    ensures CountFor(Emitted(contracts, today), id) == 0
  {
    EmittedOrigins(contracts, today);
    var e := Emitted(contracts, today);
    forall i | 0 <= i < |e|
      ensures e[i].origin != id
    {
      assert e[i] in e;
    }
  }

  /**
   * With distinct ids, the scheduler issues exactly one invoice for each due
   * contract and none for the others.
   */
  lemma {:induction false} EmittedOncePerDueContract(contracts: seq<Contract>, today: Date, k: nat)
    requires forall i, j :: 0 <= i < j < |contracts| ==> contracts[i].id != contracts[j].id
    requires k < |contracts|
    ensures CountFor(Emitted(contracts, today), contracts[k].id) == if contracts[k].IsDue(today) then 1 else 0
  {
    var n := |contracts| - 1;
    var prefix := contracts[..n];
    var last := contracts[n];
    var id := contracts[k].id;
    var e := Emitted(prefix, today);
    EmittedSnoc(contracts, today);
    if last.IsDue(today) {
      CountForAppendOne(e, last.InvoiceOf(today), id);
    } else {
      assert e + [] == e;
    }
    if k < n {
      assert prefix[k] == contracts[k];
      EmittedOncePerDueContract(prefix, today, k);
    } else {
      EmittedAvoids(prefix, today, id);
    }
  }

  /** `EmittedOncePerDueContract` for every contract at once. */
  lemma EmittedCounts(contracts: seq<Contract>, today: Date)
    requires forall i, j :: 0 <= i < j < |contracts| ==> contracts[i].id != contracts[j].id
    ensures forall k :: 0 <= k < |contracts| ==>
      CountFor(Emitted(contracts, today), contracts[k].id) == if contracts[k].IsDue(today) then 1 else 0
  {
    forall k | 0 <= k < |contracts|
      ensures CountFor(Emitted(contracts, today), contracts[k].id) == if contracts[k].IsDue(today) then 1 else 0
    {
      EmittedOncePerDueContract(contracts, today, k);
    }
  }

  /** `CountForAppend` for the id of every contract at once. */
  lemma CountsAfterAppend(before: seq<Invoice>, emitted: seq<Invoice>, contracts: seq<Contract>)
    ensures forall k :: 0 <= k < |contracts| ==>
      CountFor(before + emitted, contracts[k].id) == CountFor(before, contracts[k].id) + CountFor(emitted, contracts[k].id)
  {
    forall k | 0 <= k < |contracts|
      ensures CountFor(before + emitted, contracts[k].id) == CountFor(before, contracts[k].id) + CountFor(emitted, contracts[k].id)
    {
      CountForAppend(before, emitted, contracts[k].id);
    }
  }

  /**
   * Appending the invoices of one scheduler pass raises the count of every
   * due contract by exactly one (ids distinct).
   */
  lemma DueCountsRise(before: seq<Invoice>, contracts: seq<Contract>, today: Date)
    requires forall i, j :: 0 <= i < j < |contracts| ==> contracts[i].id != contracts[j].id
    ensures forall k :: 0 <= k < |contracts| && contracts[k].IsDue(today) ==>
      CountFor(before + Emitted(contracts, today), contracts[k].id) == CountFor(before, contracts[k].id) + 1
  {
    EmittedCounts(contracts, today);
    CountsAfterAppend(before, Emitted(contracts, today), contracts);
  }

  /**
   * The loop of the scheduler tick: each contract once, in order. Every
   * contract ends in the state `TickState` gives; the ledger gains exactly
   * the invoices of the due contracts, in order; a due contract's invoice
   * count is the number of ledger invoices from it; nothing else changes.
   */
  method TickEach(contracts: seq<Contract>, ledger: Ledger, today: Date)
    requires forall i, j :: 0 <= i < j < |contracts| ==> contracts[i].id != contracts[j].id
    modifies contracts`state, contracts`invoiceCount, ledger`invoices
    ensures forall k :: 0 <= k < |contracts| ==>
      contracts[k].state == TickState(old(contracts[k].state), contracts[k].dateEnd, contracts[k].contractReminder, today)
    ensures ledger.invoices == old(ledger.invoices) + old(Emitted(contracts, today))
    ensures forall k :: 0 <= k < |contracts| ==>
      contracts[k].invoiceCount
        == if old(contracts[k].IsDue(today)) then CountFor(ledger.invoices, contracts[k].id)
           else old(contracts[k].invoiceCount)
  {
    for i := 0 to |contracts|
      invariant forall k :: 0 <= k < i ==>
        contracts[k].state == TickState(old(contracts[k].state), contracts[k].dateEnd, contracts[k].contractReminder, today)
      invariant forall k :: i <= k < |contracts| ==>
        contracts[k].state == old(contracts[k].state) && contracts[k].invoiceCount == old(contracts[k].invoiceCount)
      invariant ledger.invoices == old(ledger.invoices) + old(Emitted(contracts[..i], today))
      invariant forall k :: 0 <= k < i ==>
        contracts[k].invoiceCount
          == if old(contracts[k].IsDue(today)) then CountFor(ledger.invoices, contracts[k].id)
             else old(contracts[k].invoiceCount)
    {
      contracts[i].ScheduledTick(ledger, today);
      assert contracts[..i + 1][..i] == contracts[..i];
    }
    assert contracts[..|contracts|] == contracts;
  }

  /**
   * The scheduled job: one tick over all contracts (`TickEach`). Besides
   * what the loop guarantees, every due contract's invoice count ends one
   * above its ledger count before the tick.
   */
  method SubscriptionContractStateChange(contracts: seq<Contract>, ledger: Ledger, today: Date)
    requires forall i, j :: 0 <= i < j < |contracts| ==> contracts[i].id != contracts[j].id
    modifies contracts`state, contracts`invoiceCount, ledger`invoices
    ensures forall k :: 0 <= k < |contracts| ==>
      contracts[k].state == TickState(old(contracts[k].state), contracts[k].dateEnd, contracts[k].contractReminder, today)
    ensures ledger.invoices == old(ledger.invoices) + old(Emitted(contracts, today))
    ensures forall k :: 0 <= k < |contracts| ==>
      contracts[k].invoiceCount
        == if old(contracts[k].IsDue(today)) then CountFor(ledger.invoices, contracts[k].id)
           else old(contracts[k].invoiceCount)
    ensures forall k :: 0 <= k < |contracts| && old(contracts[k].IsDue(today)) ==>
      contracts[k].invoiceCount == CountFor(old(ledger.invoices), contracts[k].id) + 1
  {
    DueCountsRise(ledger.invoices, contracts, today);
    TickEach(contracts, ledger, today);
  }
}
