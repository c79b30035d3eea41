/**
 * One priced product line of a subscription contract
 * (`subscription.contracts.line`): the two unit-price rules, the discounted
 * sub-total, and the product-driven unit of measure and description.
 *
 * Every compute of the line is a per-record formula, so each one is a function
 * over a line value plus the contract's recurring period and the company's
 * margin settings.
 */
module SubscriptionContractLine {
  import opened Wrappers

  type ProductId = nat
  type UomId = nat
  type TaxId = nat

  /** The recurring period of a contract, which also selects the margin tier. */
  datatype Period = P12 | P18 | P24

  /** The company's margin percentages, one per period tier. */
  datatype Company = Company(marge12: real, marge18: real, marge24: real)

  /** The company margin for one tier. */
  function TierMargin(company: Company, period: Period): real {
    match period
    case P12 => company.marge12
    case P18 => company.marge18
    case P24 => company.marge24
  }

  /** A catalogue product, as far as a contract line reads it. */
  datatype Product = Product(id: ProductId, lstPrice: real, uom: UomId, saleDescription: string)

  /**
   * The stored fields of a line. `priceUnit` and `description` are computed
   * but stay editable, so they are stored; the unit of measure and the
   * sub-total are derived and given by `ProductUom` and `SubTotal`.
   */
  datatype Line = Line(
    product: Option<Product>,
    description: string,
    qtyOrdered: real,
    basePriceUnit: real,
    priceUnit: real,
    taxes: set<TaxId>,
    discount: real)

  /**
   * The margin-tier unit price: the base price raised by the company margin
   * of the contract's period tier, or the base price when no period is set.
   */
  function MarginPriceUnit(basePriceUnit: real, period: Option<Period>, company: Company): (r: real)
    ensures period.None? ==> r == basePriceUnit
    ensures period.Some? ==> r - basePriceUnit == basePriceUnit * TierMargin(company, period.value) / 100.0
  {
    match period
    case Some(P12) => basePriceUnit * (1.0 + company.marge12 / 100.0)
    case Some(P18) => basePriceUnit * (1.0 + company.marge18 / 100.0)
    case Some(P24) => basePriceUnit * (1.0 + company.marge24 / 100.0)
    case None => basePriceUnit
  }

  /** A base price of 100 with a 10% margin on the 12 tier gives 110. */
  lemma MarginPriceExample(company: Company)
    requires company.marge12 == 10.0
    ensures MarginPriceUnit(100.0, Some(P12), company) == 110.0
  {
  }

  /** A non-negative margin never lowers a non-negative base price. */
  lemma MarginPriceBounds(basePriceUnit: real, period: Period, company: Company)
    requires basePriceUnit >= 0.0 && TierMargin(company, period) >= 0.0
    ensures basePriceUnit <= MarginPriceUnit(basePriceUnit, Some(period), company)
  {
    var m := TierMargin(company, period);
    assert basePriceUnit * m / 100.0 >= 0.0;
  }

  /** The list price of the line's product; an absent product reads as 0. */
  function ListPrice(product: Option<Product>): real {
    if product.Some? then product.value.lstPrice else 0.0
  }

  /**
   * The unit-price rule that takes effect: the line takes the product's list
   * price, and no other field changes.
   */
  function ComputePriceUnit(line: Line): (r: Line)
    ensures line.product.Some? ==> r.priceUnit == line.product.value.lstPrice
    ensures line.product.None? ==> r.priceUnit == 0.0
    ensures r.(priceUnit := line.priceUnit) == line
  {
    line.(priceUnit := ListPrice(line.product))
  }

  /**
   * The effective rule ignores the base price, the period and the margins:
   * two lines that differ only in their base price end with the same price.
   */
  lemma EffectivePriceIgnoresBase(line: Line, basePriceUnit: real)
    ensures ComputePriceUnit(line.(basePriceUnit := basePriceUnit)).priceUnit == ComputePriceUnit(line).priceUnit
  {
  }

  /** A line where the two rules disagree: list price 50, base 100, margin 10% on the 12 tier. */
  lemma EffectivePriceShadowsMargin(line: Line, company: Company)
    requires line.product.Some? && line.product.value.lstPrice == 50.0
    requires line.basePriceUnit == 100.0 && company.marge12 == 10.0
    ensures ComputePriceUnit(line).priceUnit == 50.0
    ensures MarginPriceUnit(line.basePriceUnit, Some(P12), company) == 110.0
  {
  }

  /** The discounted sub-total: the gross amount less `discount` percent of it. */
  function SubTotal(line: Line): (r: real)
    ensures r == line.qtyOrdered * line.priceUnit * (1.0 - line.discount / 100.0)
  {
    var total := line.priceUnit * line.qtyOrdered;
    var discount := total * line.discount / 100.0;
    total - discount
  }

  /** No discount keeps the gross amount; a full discount gives zero. */
  lemma SubTotalAtDiscountExtremes(line: Line)
    ensures line.discount == 0.0 ==> SubTotal(line) == line.qtyOrdered * line.priceUnit
    ensures line.discount == 100.0 ==> SubTotal(line) == 0.0
  {
  }

  /** With a discount in [0, 100] and a non-negative gross amount, the sub-total lies between 0 and the gross amount. */
  lemma SubTotalBounds(line: Line)
    requires 0.0 <= line.discount <= 100.0
    requires line.qtyOrdered >= 0.0 && line.priceUnit >= 0.0
    ensures 0.0 <= SubTotal(line) <= line.qtyOrdered * line.priceUnit
  {
    var gross := line.qtyOrdered * line.priceUnit;
    var keep := 1.0 - line.discount / 100.0;
    assert gross >= 0.0;
    assert 0.0 <= keep <= 1.0;
    assert SubTotal(line) == gross * keep;
    assert 0.0 <= gross * keep <= gross * 1.0;
  }

  /** A line without a product is priced at 0 by the effective rule, so its sub-total is 0. */
  lemma NoProductNoSubTotal(line: Line)
    requires line.product.None?
    ensures SubTotal(ComputePriceUnit(line)) == 0.0
  {
  }

  /** The line's unit of measure: the product's, or none without a product. */
  function ProductUom(line: Line): (r: Option<UomId>)
    ensures r.Some? <==> line.product.Some?
    ensures r.Some? ==> r.value == line.product.value.uom
  {
    if line.product.Some? then Some(line.product.value.uom) else None
  }

  /**
   * The description compute: a line with a product takes the product's sale
   * description; a line without one is skipped and keeps its description.
   * No other field changes.
   */
  function ComputeDescription(line: Line): (r: Line)
    ensures line.product.None? ==> r == line
    ensures line.product.Some? ==> r.description == line.product.value.saleDescription
    ensures r.(description := line.description) == line
  {
    if line.product.None? then line
    else line.(description := line.product.value.saleDescription)
  }

  /** Recomputing the description again changes nothing. */
  lemma ComputeDescriptionIdempotent(line: Line)
    ensures ComputeDescription(ComputeDescription(line)) == ComputeDescription(line)
  {
  }
}
