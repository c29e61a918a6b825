/** Corporate final tax of Article 4(2): a per-category rate and
    description, with the 20% no-NPWP surcharge applied only to property
    rental and the three construction services. */
module CorporatePPh4Ayat2 {

  import opened TaxCommon

  /** Income categories; `UnlistedIncome` stands for any other tag. */
  datatype IncomeType =
    | PropertyRental | Construction | ConstructionExecution | ConstructionSupervision
    | SharesPrivate | BondInterest | Deposit | Lottery | UnlistedIncome

  datatype Input = Input(incomeType: IncomeType, incomeAmount: real, hasNPWP: bool)
  datatype Result = Result(incomeAmount: real, rate: real, tax: real, description: string)

  /** Rate (percent) of a category before any surcharge. */
  function TableRate(t: IncomeType): (rate: real)
    ensures 0.1 <= rate <= 25.0
    ensures t == UnlistedIncome ==> rate == 10.0
  {
    match t
    case PropertyRental => 10.0
    case Construction => 2.0
    case ConstructionExecution => 3.0
    case ConstructionSupervision => 4.0
    case SharesPrivate => 0.1
    case BondInterest => 15.0
    case Deposit => 20.0
    case Lottery => 25.0
    case UnlistedIncome => 10.0
  }

  /** Explanation of a category's rate; empty for an unmatched category. */
  function TableDescription(t: IncomeType): (description: string)
    ensures description == "" <==> t == UnlistedIncome
  {
    match t
    case PropertyRental => "Tarif untuk sewa tanah dan/atau bangunan adalah 10%"
    case Construction => "Tarif untuk jasa konstruksi (perencanaan) adalah 2%"
    case ConstructionExecution => "Tarif untuk jasa konstruksi (pelaksanaan) adalah 3%"
    case ConstructionSupervision => "Tarif untuk jasa konstruksi (pengawasan) adalah 4%"
    case SharesPrivate => "Tarif untuk pengalihan saham perusahaan tertutup adalah 0.1%"
    case BondInterest => "Tarif untuk bunga obligasi adalah 15%"
    case Deposit => "Tarif untuk bunga deposito adalah 20%"
    case Lottery => "Tarif untuk hadiah undian adalah 25%"
    case UnlistedIncome => ""
  }

  const NoNpwpSuffix := " (Ditambah 20% karena tidak memiliki NPWP)"

  /** Categories whose rate is raised when the payee has no NPWP. */
  predicate SurchargeEligible(t: IncomeType)
  {
    t == PropertyRental || t == Construction || t == ConstructionExecution || t == ConstructionSupervision
  }

  /** The surcharge applies to a calculation. */
  predicate Surcharged(p: Input)
  {
    !p.hasNPWP && SurchargeEligible(p.incomeType)
  }

  /** The rate table; an unmatched category pays 10% with no description. */
  lemma RateTable(t: IncomeType)
    ensures TableRate(PropertyRental) == 10.0 && TableRate(Construction) == 2.0
    ensures TableRate(ConstructionExecution) == 3.0 && TableRate(ConstructionSupervision) == 4.0
    ensures TableRate(SharesPrivate) == 0.1 && TableRate(BondInterest) == 15.0
    ensures TableRate(Deposit) == 20.0 && TableRate(Lottery) == 25.0
    ensures TableRate(UnlistedIncome) == 10.0 && TableDescription(UnlistedIncome) == ""
    ensures 0.1 <= TableRate(t) <= 25.0
  {
  }

  /** Corporate final tax: the table rate, 1.2 times with a note appended to
      the description when the surcharge applies, on the income amount. */
  function CalculatePPh4Ayat2(p: Input): (r: Result)
    ensures r.incomeAmount == p.incomeAmount
    ensures r.rate == (if Surcharged(p) then NoNpwpFactor * TableRate(p.incomeType) else TableRate(p.incomeType))
    ensures r.description == TableDescription(p.incomeType) + (if Surcharged(p) then NoNpwpSuffix else "")
    ensures r.tax == PercentOf(p.incomeAmount, r.rate)
  {
    var rate := TableRate(p.incomeType);
    var description := TableDescription(p.incomeType);
    var surcharged := !p.hasNPWP && SurchargeEligible(p.incomeType);
    var rate' := if surcharged then rate * NoNpwpFactor else rate;
    var description' := if surcharged then description + NoNpwpSuffix else description;
    Result(p.incomeAmount, rate', PercentOf(p.incomeAmount, rate'), description')
  }

  /** For shares, bonds, deposits, lottery prizes and unmatched categories
      the NPWP flag changes nothing. */
  lemma NpwpIrrelevantOutsideSurchargeCategories(p: Input)
    requires !SurchargeEligible(p.incomeType)
    ensures CalculatePPh4Ayat2(p) == CalculatePPh4Ayat2(p.(hasNPWP := !p.hasNPWP))
  {
  }

  /** The description carries the surcharge note exactly when the rate was
      raised, and a raised rate is exactly 1.2 times the table rate. */
  lemma SurchargeNoteIffSurcharged(p: Input)
    ensures var r := CalculatePPh4Ayat2(p);
      (r.description == TableDescription(p.incomeType) + NoNpwpSuffix) <==> Surcharged(p)
    ensures var r := CalculatePPh4Ayat2(p);
      (r.rate == TableRate(p.incomeType)) <==> !Surcharged(p)
  {
    var d := TableDescription(p.incomeType);
    if !Surcharged(p) {
      assert |d + NoNpwpSuffix| > |d|;
    }
  }
}
