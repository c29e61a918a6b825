/** PPh 15: final tax at deemed rates on the gross income of shipping,
    aviation, foreign drilling and foreign construction businesses. */
module PPh15 {

  import opened TaxCommon

  /** Business types; `UnlistedBusiness` stands for any other tag. */
  datatype BusinessType =
    | Shipping | InternationalShipping | Aviation | ForeignDrilling | ForeignConstruction
    | UnlistedBusiness

  datatype Input = Input(businessType: BusinessType, grossIncome: real, hasNPWP: bool)
  datatype Result = Result(grossIncome: real, rate: real, tax: real)

  /** Deemed rate (percent) of a business type. */
  function TableRate(b: BusinessType): (rate: real)
    ensures 1.8 <= rate <= 4.5
    ensures b == UnlistedBusiness ==> rate == 2.64
  {
    match b
    case Shipping => 2.64
    case InternationalShipping => 4.0
    case Aviation => 1.8
    case ForeignDrilling => 4.5
    case ForeignConstruction => 3.0
    case UnlistedBusiness => 2.64
  }

  /** An unmatched type is taxed like domestic shipping; all rates lie
      between 1.8% and 4.5%. */
  lemma RateTable(b: BusinessType)
    ensures TableRate(UnlistedBusiness) == TableRate(Shipping) == 2.64
    ensures 1.8 <= TableRate(b) <= 4.5
  {
  }

  /** The table rate, 1.2 times without NPWP, applied to gross income. */
  function CalculatePPh15(p: Input): (r: Result)
    ensures r.grossIncome == p.grossIncome
    ensures p.hasNPWP ==> r.rate == TableRate(p.businessType)
    ensures !p.hasNPWP ==> r.rate == NoNpwpFactor * TableRate(p.businessType)
    ensures r.tax == PercentOf(p.grossIncome, r.rate)
    ensures p.grossIncome >= 0.0 ==> 0.0 <= r.tax <= 0.054 * p.grossIncome
  {
    var rate := TableRate(p.businessType);
    var rate' := if !p.hasNPWP then rate * NoNpwpFactor else rate;
    Result(p.grossIncome, rate', PercentOf(p.grossIncome, rate'))
  }

  /** More gross income never means less tax. */
  lemma TaxMonotoneInIncome(p: Input, q: Input)
    requires p.businessType == q.businessType && p.hasNPWP == q.hasNPWP
    requires 0.0 <= p.grossIncome <= q.grossIncome
    ensures 0.0 <= CalculatePPh15(p).tax <= CalculatePPh15(q).tax
  {
    var rate := CalculatePPh15(p).rate;
    assert rate > 0.0;
    assert CalculatePPh15(q).tax - CalculatePPh15(p).tax == (q.grossIncome - p.grossIncome) * (rate / 100.0);
  }
}
