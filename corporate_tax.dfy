/** Corporate-side withholding calculations: PPh 21 (monthly employee
    withholding), PPh 22 (import and procurement), PPh 23 (services, rent,
    royalties), PPh 26 (payments abroad) and PPN with PPnBM (value-added tax
    and luxury-goods surcharge). Every calculation is a pure function from an
    input record to a result record. */
module CorporateTax {

  import opened TaxCommon
  import opened IncomeTaxSchedule

  // ---------------------------------------------------------------- PPh 21

  /** Monthly position cost deduction: 5% of gross income, capped. */
  const PositionCostRate: real := 0.05
  const PositionCostCap: real := 500_000.0

  datatype PPh21Input = PPh21Input(
    salary: real,
    allowances: real,
    insurancePremium: real,
    pensionContribution: real,
    isMarried: bool,
    dependents: nat,
    hasPTKP: bool,
    isPermanent: bool,  // read by the calculator but never used
    isNPWP: bool)

  datatype PPh21Result = PPh21Result(
    grossIncome: real,
    positionCost: real,
    totalDeductions: real,
    netIncome: real,
    annualNetIncome: real,
    ptkp: real,
    taxableIncome: real,
    annualTax: real,
    monthlyTax: real)

  /** Employee withholding: monthly gross income less the position cost,
      insurance and pension, annualised, less PTKP when it applies, taxed by
      the Article 17 brackets, 20% more without NPWP, and spread over twelve
      months. */
  function CalculatePPh21(p: PPh21Input): (r: PPh21Result)
    ensures r.grossIncome == p.salary + p.allowances
    ensures r.positionCost <= PositionCostCap && r.positionCost <= PositionCostRate * r.grossIncome
    ensures r.positionCost == PositionCostCap || r.positionCost == PositionCostRate * r.grossIncome
    ensures r.totalDeductions == r.positionCost + p.insurancePremium + p.pensionContribution
    ensures r.netIncome == r.grossIncome - r.totalDeductions
    ensures r.annualNetIncome == 12.0 * r.netIncome
    ensures !p.hasPTKP ==> r.ptkp == 0.0
    ensures p.hasPTKP ==> r.ptkp == Ptkp(p.isMarried, p.dependents)
    ensures r.taxableIncome >= 0.0 && r.taxableIncome >= r.annualNetIncome - r.ptkp
    ensures r.taxableIncome == 0.0 || r.taxableIncome == r.annualNetIncome - r.ptkp
    ensures r.annualTax == (if p.isNPWP then 1.0 else NoNpwpFactor) * BracketTax(r.taxableIncome)
    ensures r.annualTax >= 0.0
    ensures r.monthlyTax * 12.0 == r.annualTax
  {
    var grossIncome := p.salary + p.allowances;
    var positionCost := Min(grossIncome * PositionCostRate, PositionCostCap);
    var totalDeductions := positionCost + p.insurancePremium + p.pensionContribution;
    var netIncome := grossIncome - totalDeductions;
    var annualNetIncome := netIncome * 12.0;
    var ptkp := if p.hasPTKP then Ptkp(p.isMarried, p.dependents) else 0.0;
    var taxableIncome := Max(0.0, annualNetIncome - ptkp);
    var bracketTax := BracketTax(taxableIncome);
    var annualTax := if taxableIncome > 0.0 && !p.isNPWP then bracketTax * NoNpwpFactor else bracketTax;
    PPh21Result(grossIncome, positionCost, totalDeductions, netIncome, annualNetIncome,
                ptkp, taxableIncome, annualTax, annualTax / 12.0)
  }

  /** Without NPWP the annual tax is exactly 1.2 times what the same employee
      owes with NPWP; the flag changes nothing else. */
  lemma PPh21NoNpwpSurcharge(p: PPh21Input)
    ensures CalculatePPh21(p.(isNPWP := false)).annualTax ==
            NoNpwpFactor * CalculatePPh21(p.(isNPWP := true)).annualTax
    ensures CalculatePPh21(p.(isNPWP := false)).taxableIncome ==
            CalculatePPh21(p.(isNPWP := true)).taxableIncome
  {
  }

  /** When deductions and PTKP absorb the whole income, nothing is withheld,
      with or without NPWP. */
  lemma PPh21ZeroTaxableIncome(p: PPh21Input)
    requires CalculatePPh21(p).taxableIncome == 0.0
    ensures CalculatePPh21(p).annualTax == 0.0 && CalculatePPh21(p).monthlyTax == 0.0
  {
  }

  /** Salary 10,000,000 with no exemption and an NPWP: the position cost hits
      its cap, the annual taxable income is 114,000,000 and the annual tax is
      12,100,000. */
  lemma PPh21Example()
    ensures var r := CalculatePPh21(PPh21Input(10_000_000.0, 0.0, 0.0, 0.0, false, 0, false, true, true));
      r.grossIncome == 10_000_000.0 && r.positionCost == 500_000.0 && r.netIncome == 9_500_000.0 &&
      r.annualNetIncome == 114_000_000.0 && r.ptkp == 0.0 && r.taxableIncome == 114_000_000.0 &&
      r.annualTax == 12_100_000.0 && r.monthlyTax == 12_100_000.0 / 12.0
  {
    BracketTaxExample();
  }

  // ---------------------------------------------------------------- PPh 22

  /** Transaction categories; `OtherTransaction` stands for any other tag. */
  datatype TransactionType =
    | Import | GovernmentPayment | StateOwnedCompany | Automotive | Oil | Luxury
    | OtherTransaction

  /** Import sub-types; `RegularImport` stands for any tag other than the two
      special ones. */
  datatype ImportType = Soybeans | SpecialImport | RegularImport

  datatype PPh22Input = PPh22Input(
    transactionType: TransactionType,
    transactionValue: real,
    hasNPWP: bool,
    importType: ImportType,
    apiuExists: bool)

  datatype PPh22Result = PPh22Result(
    transactionValue: real,
    rate: real,
    tax: real,
    additionalInfo: Option<string>)

  const SoybeansImportNote := "Tarif khusus untuk impor kedelai, gandum, tepung terigu adalah 0,5%"
  const SpecialImportNote := "Tarif khusus untuk impor dengan ketentuan khusus adalah 7,5%"
  const ApiuImportNote := "Importir dengan API-U dikenakan tarif 2,5%"
  const NoApiuImportNote := "Importir tanpa API-U dikenakan tarif 7,5%"
  const AutomotiveNote := "Tarif untuk penjualan kendaraan bermotor dalam negeri adalah 0,45%"
  const OilNote := "Tarif untuk pembelian bahan bakar adalah 0,3%"
  const LuxuryNote := "Tarif untuk pembelian barang mewah adalah 5%"
  const NoNpwpNote22 := " Tambahan 20% karena tidak memiliki NPWP."

  /** Rate (percent) before the NPWP surcharge. */
  function PPh22BaseRate(t: TransactionType, importType: ImportType, apiuExists: bool): (rate: real)
    ensures 0.3 <= rate <= 7.5
    ensures t == Import && importType == Soybeans ==> rate == 0.5
    ensures t == Import && importType == RegularImport ==> (rate == 2.5 <==> apiuExists)
    ensures t == OtherTransaction ==> rate == 1.5
  {
    match t
    case Import =>
      (match importType
       case Soybeans => 0.5
       case SpecialImport => 7.5
       case RegularImport => if apiuExists then 2.5 else 7.5)
    case GovernmentPayment => 1.5
    case StateOwnedCompany => 1.5
    case Automotive => 0.45
    case Oil => 0.3
    case Luxury => 5.0
    case OtherTransaction => 1.5
  }

  /** Note explaining the special rule behind the base rate, if any. */
  function PPh22BaseNote(t: TransactionType, importType: ImportType, apiuExists: bool): (note: Option<string>)
    ensures note.None? <==> t == GovernmentPayment || t == StateOwnedCompany || t == OtherTransaction
  {
    match t
    case Import =>
      (match importType
       case Soybeans => Some(SoybeansImportNote)
       case SpecialImport => Some(SpecialImportNote)
       case RegularImport => Some(if apiuExists then ApiuImportNote else NoApiuImportNote))
    case Automotive => Some(AutomotiveNote)
    case Oil => Some(OilNote)
    case Luxury => Some(LuxuryNote)
    case _ => None
  }

  /** Text of an optional note, the empty string when there is none. */
  function NoteText(note: Option<string>): string
  {
    match note
    case Some(text) => text
    case None => ""
  }

  /** The rate table: the two special import sub-types ignore the import
      licence (API-U), a regular import pays less with it, and an unmatched
      category falls back to 1.5%. */
  lemma PPh22RateSelection(t: TransactionType, importType: ImportType, apiuExists: bool)
    ensures PPh22BaseRate(Import, Soybeans, apiuExists) == 0.5
    ensures PPh22BaseRate(Import, SpecialImport, apiuExists) == 7.5
    ensures PPh22BaseRate(Import, RegularImport, apiuExists) == if apiuExists then 2.5 else 7.5
    ensures PPh22BaseRate(OtherTransaction, importType, apiuExists) == 1.5
    ensures t != Import ==> PPh22BaseRate(t, importType, apiuExists) == PPh22BaseRate(t, importType, !apiuExists)
    ensures 0.3 <= PPh22BaseRate(t, importType, apiuExists) <= 7.5
  {
  }

  /** Import and procurement withholding: the base rate, 1.2 times without
      NPWP together with a note about the surcharge, applied to the value. */
  function CalculatePPh22(p: PPh22Input): (r: PPh22Result)
    ensures r.transactionValue == p.transactionValue
    ensures p.hasNPWP ==> r.rate == PPh22BaseRate(p.transactionType, p.importType, p.apiuExists)
    ensures !p.hasNPWP ==> r.rate == NoNpwpFactor * PPh22BaseRate(p.transactionType, p.importType, p.apiuExists)
    ensures r.tax == PercentOf(p.transactionValue, r.rate)
    ensures p.transactionValue >= 0.0 ==> r.tax >= 0.0
    ensures p.hasNPWP ==> r.additionalInfo == PPh22BaseNote(p.transactionType, p.importType, p.apiuExists)
    ensures !p.hasNPWP ==>
      r.additionalInfo == Some(NoteText(PPh22BaseNote(p.transactionType, p.importType, p.apiuExists)) + NoNpwpNote22)
  {
    var baseRate := PPh22BaseRate(p.transactionType, p.importType, p.apiuExists);
    var baseNote := PPh22BaseNote(p.transactionType, p.importType, p.apiuExists);
    var rate := if p.hasNPWP then baseRate else baseRate * NoNpwpFactor;
    var info := if p.hasNPWP then baseNote else Some(NoteText(baseNote) + NoNpwpNote22);
    PPh22Result(p.transactionValue, rate, PercentOf(p.transactionValue, rate), info)
  }

  /** Soybean imports pay 0.5% with NPWP and 0.6% without, whatever the
      import licence says. */
  lemma PPh22SoybeansExample(value: real, hasNPWP: bool, apiuExists: bool)
    ensures CalculatePPh22(PPh22Input(Import, value, hasNPWP, Soybeans, apiuExists)).rate ==
            if hasNPWP then 0.5 else 0.6
  {
  }

  // ---------------------------------------------------------------- PPh 23

  /** Income categories offered for PPh 23; `UnlistedIncome` stands for any
      other tag. */
  datatype PPh23IncomeType =
    | Rent | TechnicalService | ManagementService | ConsultantService | OtherActivities
    | Dividend | Interest | Royalty | Prize | UnlistedIncome

  datatype PPh23Input = PPh23Input(incomeType: PPh23IncomeType, incomeAmount: real, hasNPWP: bool)
  datatype PPh23Result = PPh23Result(incomeAmount: real, rate: real, tax: real)

  /** Services, rent and royalty withholding: 2% on rent and other activities,
      15% on everything else, 1.2 times without NPWP. */
  function CalculatePPh23(p: PPh23Input): (r: PPh23Result)
    ensures r.incomeAmount == p.incomeAmount
    ensures var base := if p.incomeType == Rent || p.incomeType == OtherActivities then 2.0 else 15.0;
      r.rate == (if p.hasNPWP then base else NoNpwpFactor * base)
    ensures r.tax == PercentOf(p.incomeAmount, r.rate)
    ensures p.incomeAmount >= 0.0 ==> 0.0 <= r.tax <= 0.18 * p.incomeAmount
  {
    var base := if p.incomeType.Rent? || p.incomeType.OtherActivities? then 2.0 else 15.0;
    var rate := if p.hasNPWP then base else base * NoNpwpFactor;
    PPh23Result(p.incomeAmount, rate, PercentOf(p.incomeAmount, rate))
  }

  // ---------------------------------------------------------------- PPh 26

  const PPh26StandardRate: real := 20.0

  datatype PPh26Input = PPh26Input(
    incomeType: string,  // read by the calculator but never used
    incomeAmount: real,
    hasTaxTreaty: bool,
    treatyRate: real)

  datatype PPh26Result = PPh26Result(
    incomeAmount: real,
    standardRate: real,
    appliedRate: real,
    tax: real,
    hasTaxTreaty: bool)

  /** Withholding on payments abroad: 20%, replaced outright by the treaty
      rate when a treaty applies and a non-zero treaty rate is given. */
  function CalculatePPh26(p: PPh26Input): (r: PPh26Result)
    ensures r.incomeAmount == p.incomeAmount && r.hasTaxTreaty == p.hasTaxTreaty
    ensures r.standardRate == 20.0
    ensures p.hasTaxTreaty && p.treatyRate != 0.0 ==> r.appliedRate == p.treatyRate
    ensures !(p.hasTaxTreaty && p.treatyRate != 0.0) ==> r.appliedRate == r.standardRate
    ensures r.tax == PercentOf(p.incomeAmount, r.appliedRate)
  {
    var appliedRate := if p.hasTaxTreaty && p.treatyRate != 0.0 then p.treatyRate else PPh26StandardRate;
    PPh26Result(p.incomeAmount, PPh26StandardRate, appliedRate,
                PercentOf(p.incomeAmount, appliedRate), p.hasTaxTreaty)
  }

  /** A treaty rate within 0..20 never raises the tax above the standard one. */
  lemma PPh26TreatyNeverRaisesTax(p: PPh26Input)
    requires p.incomeAmount >= 0.0 && 0.0 <= p.treatyRate <= 20.0
    ensures 0.0 <= CalculatePPh26(p).tax <= PercentOf(p.incomeAmount, PPh26StandardRate)
  {
  }

  // ---------------------------------------------------------------- PPN

  const PpnRate: real := 11.0

  /** Luxury-goods tiers; `NotLuxury` is the empty selection and
      `UnlistedCategory` any other tag. */
  datatype LuxuryGoods =
    | NotLuxury | Category1 | Category2 | Category3 | Category4 | Category5 | UnlistedCategory

  datatype PPNInput = PPNInput(
    transactionType: string,  // read by the calculator but never used
    transactionValue: real,
    luxuryGoods: LuxuryGoods)

  datatype PPNResult = PPNResult(
    transactionValue: real,
    ppnRate: real,
    ppn: real,
    ppnbmRate: real,
    ppnbm: real,
    totalTax: real)

  /** PPnBM rate (percent) of a luxury tier. */
  function PpnbmRate(category: LuxuryGoods): (rate: real)
    ensures 0.0 <= rate <= 50.0
    ensures rate == 0.0 <==> category == NotLuxury || category == UnlistedCategory
  {
    match category
    case Category1 => 10.0
    case Category2 => 20.0
    case Category3 => 30.0
    case Category4 => 40.0
    case Category5 => 50.0
    case NotLuxury => 0.0
    case UnlistedCategory => 0.0
  }

  /** The tiers are 10% apart from 10% to 50%; no tier or an unknown one
      pays no luxury surcharge. */
  lemma PpnbmRateTable(category: LuxuryGoods)
    ensures PpnbmRate(category) in {0.0, 10.0, 20.0, 30.0, 40.0, 50.0}
    ensures PpnbmRate(category) == 0.0 <==> category == NotLuxury || category == UnlistedCategory
    ensures PpnbmRate(Category1) == 10.0 && PpnbmRate(Category5) == 50.0
  {
  }

  /** Value-added tax at 11% plus the luxury surcharge of the tier. */
  function CalculatePPN(p: PPNInput): (r: PPNResult)
    ensures r.transactionValue == p.transactionValue
    ensures r.ppnRate == 11.0 && r.ppn == 0.11 * p.transactionValue
    ensures r.ppnbmRate == PpnbmRate(p.luxuryGoods)
    ensures r.ppnbm == PercentOf(p.transactionValue, r.ppnbmRate)
    ensures r.totalTax == r.ppn + r.ppnbm
    ensures p.transactionValue >= 0.0 ==> r.ppn <= r.totalTax <= 0.61 * p.transactionValue
  {
    var ppn := PercentOf(p.transactionValue, PpnRate);
    var ppnbmRate := PpnbmRate(p.luxuryGoods);
    var ppnbm := PercentOf(p.transactionValue, ppnbmRate);
    PPNResult(p.transactionValue, PpnRate, ppn, ppnbmRate, ppnbm, ppn + ppnbm)
  }

  /** 100,000,000 in tier 3 owes 11,000,000 PPN and 30,000,000 PPnBM. */
  lemma PPNExample()
    ensures var r := CalculatePPN(PPNInput("sale", 100_000_000.0, Category3));
      r.ppn == 11_000_000.0 && r.ppnbm == 30_000_000.0 && r.totalTax == 41_000_000.0
  {
  }
}
