/** PPh 29: annual corporate tax settlement. The year's corporate tax is
    compared with the tax already paid, giving either a remaining amount due
    or an overpayment. */
module PPh29 {

  import opened TaxCommon

  datatype Input = Input(netIncome: real, previousYearLoss: real, paidTaxes: real, isSME: bool)

  datatype Result = Result(
    taxableIncome: real,
    corporateTax: real,
    paidTaxes: real,
    remainingTax: real,
    overpayment: real,
    isOverpaid: bool)

  /** Corporate tax rate: 11% for small and medium enterprises, else 22%. */
  function CorporateRate(isSME: bool): (rate: real)
    ensures 0.11 <= rate <= 0.22
    ensures isSME <==> rate == 0.11
  {
    if isSME then 0.11 else 0.22
  }

  /** Settlement: the loss carried forward reduces the net income (never
      below zero), the corporate rate gives the year's tax, and the
      difference from the tax paid is split into what is still due and what
      was overpaid. */
  function CalculatePPh29(p: Input): (r: Result)
    ensures r.taxableIncome >= 0.0 && r.taxableIncome >= p.netIncome - p.previousYearLoss
    ensures r.taxableIncome == 0.0 || r.taxableIncome == p.netIncome - p.previousYearLoss
    ensures r.corporateTax == CorporateRate(p.isSME) * r.taxableIncome && r.corporateTax >= 0.0
    ensures r.paidTaxes == p.paidTaxes
    ensures r.remainingTax >= 0.0 && r.overpayment >= 0.0
    ensures r.remainingTax == 0.0 || r.overpayment == 0.0
    ensures r.remainingTax - r.overpayment == r.corporateTax - p.paidTaxes
    ensures r.isOverpaid <==> p.paidTaxes > r.corporateTax
    ensures r.isOverpaid <==> r.overpayment > 0.0
  {
    var taxableIncome := Max(0.0, p.netIncome - p.previousYearLoss);
    var corporateTax := taxableIncome * CorporateRate(p.isSME);
    var remainingTax := Max(0.0, corporateTax - p.paidTaxes);
    var overpayment := Max(0.0, p.paidTaxes - corporateTax);
    Result(taxableIncome, corporateTax, p.paidTaxes, remainingTax, overpayment, p.paidTaxes > corporateTax)
  }

  /** A settlement with nothing due and nothing overpaid happens exactly when
      the tax paid matches the corporate tax. */
  lemma SettledExactly(p: Input)
    ensures var r := CalculatePPh29(p);
      (r.remainingTax == 0.0 && r.overpayment == 0.0) <==> p.paidTaxes == r.corporateTax
  {
  }

  /** A non-SME with 500,000,000 net income, no loss and 50,000,000 paid owes
      110,000,000 in all and 60,000,000 more. */
  lemma SettlementExample()
    ensures var r := CalculatePPh29(Input(500_000_000.0, 0.0, 50_000_000.0, false));
      r.taxableIncome == 500_000_000.0 && r.corporateTax == 110_000_000.0 &&
      r.remainingTax == 60_000_000.0 && r.overpayment == 0.0 && !r.isOverpaid
  {
  }
}
