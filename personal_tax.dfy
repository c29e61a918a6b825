/** Personal income tax calculations: the general progressive tax for
    bookkeeping taxpayers, the NPPN tax (net income presumed as a margin of
    turnover), the 0.5% final tax on turnover under Government Regulation
    PP 23/2018 and the final tax of Article 4(2). The two progressive
    calculations report a band-by-band breakdown and add the 20% no-NPWP
    penalty as a separate amount. */
module PersonalTax {

  import opened TaxCommon
  import opened IncomeTaxSchedule

  // ------------------------------------------------------ band breakdown

  /** One line of the breakdown: the band's rate in percent, the part of the
      taxable income in that band, and the tax on that part. */
  datatype TaxLayer = TaxLayer(rate: real, amount: real, tax: real)

  function SumTax(layers: seq<TaxLayer>): real
  {
    if |layers| == 0 then 0.0 else layers[0].tax + SumTax(layers[1..])
  }

  function SumAmount(layers: seq<TaxLayer>): real
  {
    if |layers| == 0 then 0.0 else layers[0].amount + SumAmount(layers[1..])
  }

  /** Both totals distribute over concatenation. */
  lemma {:induction false} SumsOfConcat(a: seq<TaxLayer>, b: seq<TaxLayer>)
    ensures SumTax(a + b) == SumTax(a) + SumTax(b)
    ensures SumAmount(a + b) == SumAmount(a) + SumAmount(b)
  {
    if |a| == 0 {
      assert a + b == b;
    } else {
      assert (a + b)[1..] == a[1..] + b;
      SumsOfConcat(a[1..], b);
    }
  }

  /** The breakdown line of band `k`. */
  function BandLayer(taxableIncome: real, k: nat): TaxLayer
    requires k < BandCount
  {
    TaxLayer(BandRates[k], BandShare(taxableIncome, k), BandTax(taxableIncome, k))
  }

  /** Band `k`'s line when the band holds part of the income, else nothing. */
  function BandLine(taxableIncome: real, k: nat): seq<TaxLayer>
    requires k < BandCount
  {
    if BandShare(taxableIncome, k) > 0.0 then [BandLayer(taxableIncome, k)] else []
  }

  /** Reference breakdown: the lines of the bands that hold income, bottom up. */
  function Breakdown(taxableIncome: real): seq<TaxLayer>
  {
    BandLine(taxableIncome, 0) + BandLine(taxableIncome, 1)
      + BandLine(taxableIncome, 2) + BandLine(taxableIncome, 3)
  }

  /** The breakdown lists exactly the bands that hold income, in band order
      and with no gap: line `i` is band `i`. */
  lemma BreakdownShape(t: real)
    ensures |Breakdown(t)| <= BandCount
    ensures forall i :: 0 <= i < |Breakdown(t)| ==> Breakdown(t)[i] == BandLayer(t, i)
    ensures forall k :: 0 <= k < BandCount ==> (k < |Breakdown(t)| <==> BandShare(t, k) > 0.0)
    ensures Breakdown(t) == [] <==> t <= 0.0
  {
    if t <= 0.0 {
      assert Breakdown(t) == [];
    } else if t <= 50_000_000.0 {
      assert Breakdown(t) == [BandLayer(t, 0)];
    } else if t <= 250_000_000.0 {
      assert Breakdown(t) == [BandLayer(t, 0), BandLayer(t, 1)];
    } else if t <= 500_000_000.0 {
      assert Breakdown(t) == [BandLayer(t, 0), BandLayer(t, 1), BandLayer(t, 2)];
    } else {
      assert Breakdown(t) == [BandLayer(t, 0), BandLayer(t, 1), BandLayer(t, 2), BandLayer(t, 3)];
    }
  }

  /** The lines' amounts add up to the taxable income and their taxes to the
      closed-form bracket tax. */
  lemma BreakdownTotals(t: real)
    ensures SumAmount(Breakdown(t)) == Max(0.0, t)
    ensures SumTax(Breakdown(t)) == BracketTax(t)
  {
    var l0, l1, l2, l3 := BandLine(t, 0), BandLine(t, 1), BandLine(t, 2), BandLine(t, 3);
    SumsOfConcat(l0, l1);
    SumsOfConcat(l0 + l1, l2);
    SumsOfConcat(l0 + l1 + l2, l3);
    if t > 0.0 {
      BandSharesPartitionIncome(t);
      BandTaxesSumToBracketTax(t);
    }
  }

  /** The band-by-band computation: each band's amount and tax are added to
      the running total, and a line is recorded for every band that holds
      part of the income. The total agrees with the closed-form bracket tax
      and the lines with the reference breakdown. */
  method ProgressiveLayers(taxableIncome: real) returns (totalTax: real, taxLayers: seq<TaxLayer>)
    ensures totalTax == BracketTax(taxableIncome)
    ensures taxLayers == Breakdown(taxableIncome)
    ensures SumTax(taxLayers) == totalTax
    ensures SumAmount(taxLayers) == Max(0.0, taxableIncome)
    ensures taxLayers == [] <==> taxableIncome <= 0.0
    ensures forall i :: 0 <= i < |taxLayers| ==>
      taxLayers[i].amount > 0.0 && taxLayers[i].tax == PercentOf(taxLayers[i].amount, taxLayers[i].rate)
    ensures forall i, j :: 0 <= i < j < |taxLayers| ==> taxLayers[i].rate < taxLayers[j].rate
  {
    totalTax := 0.0;
    taxLayers := [];
    if taxableIncome > 0.0 {
      var layer1Amount := Min(taxableIncome, 50_000_000.0);
      var layer1Tax := layer1Amount * 0.05;
      totalTax := totalTax + layer1Tax;
      if layer1Amount > 0.0 {
        taxLayers := taxLayers + [TaxLayer(5.0, layer1Amount, layer1Tax)];
      }

      var layer2Amount := Min(Max(0.0, taxableIncome - 50_000_000.0), 200_000_000.0);
      var layer2Tax := layer2Amount * 0.15;
      totalTax := totalTax + layer2Tax;
      if layer2Amount > 0.0 {
        taxLayers := taxLayers + [TaxLayer(15.0, layer2Amount, layer2Tax)];
      }

      var layer3Amount := Min(Max(0.0, taxableIncome - 250_000_000.0), 250_000_000.0);
      var layer3Tax := layer3Amount * 0.25;
      totalTax := totalTax + layer3Tax;
      if layer3Amount > 0.0 {
        taxLayers := taxLayers + [TaxLayer(25.0, layer3Amount, layer3Tax)];
      }

      var layer4Amount := Max(0.0, taxableIncome - 500_000_000.0);
      var layer4Tax := layer4Amount * 0.30;
      totalTax := totalTax + layer4Tax;
      if layer4Amount > 0.0 {
        taxLayers := taxLayers + [TaxLayer(30.0, layer4Amount, layer4Tax)];
      }
      BandTaxesSumToBracketTax(taxableIncome);
    }
    BreakdownShape(taxableIncome);
    BreakdownTotals(taxableIncome);
  }

  // ------------------------------------------- progressive assessment

  /** Rate of the no-NPWP penalty, reported beside the bracket tax. */
  const NpwpPenaltyRate: real := 0.2

  /** The figures shared by the general and the NPPN calculation once a net
      income is known. */
  datatype Assessment = Assessment(
    ptkp: real,
    taxableIncome: real,
    taxLayers: seq<TaxLayer>,
    totalTax: real,
    npwpPenalty: real,
    totalTaxWithPenalty: real)

  /** `a` assesses `netIncome`: PTKP is always deducted, the taxable income
      never goes below zero, the bracket tax and its breakdown follow the
      Article 17 schedule, and only the penalty depends on the NPWP flag. */
  predicate Assesses(a: Assessment, netIncome: real, isMarried: bool, dependents: nat, hasNPWP: bool)
  {
    && a.ptkp == Ptkp(isMarried, dependents)
    && a.taxableIncome == Max(0.0, netIncome - a.ptkp)
    && a.totalTax == BracketTax(a.taxableIncome)
    && a.taxLayers == Breakdown(a.taxableIncome)
    && a.npwpPenalty == (if hasNPWP then 0.0 else NpwpPenaltyRate * a.totalTax)
    && a.totalTaxWithPenalty == a.totalTax + a.npwpPenalty
  }

  /** PTKP deduction, bracket tax with its breakdown, and the separately
      reported no-NPWP penalty. */
  method Assess(netIncome: real, isMarried: bool, dependents: nat, hasNPWP: bool) returns (a: Assessment)
    ensures Assesses(a, netIncome, isMarried, dependents, hasNPWP)
    ensures a.taxableIncome >= 0.0 && a.totalTax >= 0.0 && a.npwpPenalty >= 0.0
    ensures SumTax(a.taxLayers) == a.totalTax
    ensures a.totalTaxWithPenalty == (if hasNPWP then 1.0 else NoNpwpFactor) * a.totalTax
  {
    var ptkp := Ptkp(isMarried, dependents);
    var taxableIncome := Max(0.0, netIncome - ptkp);
    var totalTax, taxLayers := ProgressiveLayers(taxableIncome);
    var npwpPenalty := if !hasNPWP then totalTax * NpwpPenaltyRate else 0.0;
    a := Assessment(ptkp, taxableIncome, taxLayers, totalTax, npwpPenalty, totalTax + npwpPenalty);
  }

  /** Whatever the NPWP flag, the same net income gets the same taxable
      income, bracket tax and breakdown; without NPWP the total with penalty
      is 1.2 times the bracket tax. */
  lemma AssessmentNpwpIndependent(a: Assessment, b: Assessment, netIncome: real, isMarried: bool, dependents: nat)
    requires Assesses(a, netIncome, isMarried, dependents, true)
    requires Assesses(b, netIncome, isMarried, dependents, false)
    ensures a.taxableIncome == b.taxableIncome && a.totalTax == b.totalTax && a.taxLayers == b.taxLayers
    ensures a.npwpPenalty == 0.0 && a.totalTaxWithPenalty == a.totalTax
    ensures b.totalTaxWithPenalty == NoNpwpFactor * a.totalTax
  {
  }

  // ------------------------------------------- general personal income tax

  datatype GeneralInput = GeneralInput(
    annualGrossIncome: real,
    allowableDeductions: real,
    isMarried: bool,
    dependents: nat,
    hasNPWP: bool)

  datatype GeneralResult = GeneralResult(
    grossIncome: real,
    allowableDeductions: real,
    netIncome: real,
    assessment: Assessment)

  /** General personal income tax of a bookkeeping taxpayer: gross income
      less allowable deductions, then the progressive assessment. */
  method CalculateGeneralPersonalIncomeTax(p: GeneralInput) returns (r: GeneralResult)
    ensures r.grossIncome == p.annualGrossIncome && r.allowableDeductions == p.allowableDeductions
    ensures r.netIncome == p.annualGrossIncome - p.allowableDeductions
    ensures Assesses(r.assessment, r.netIncome, p.isMarried, p.dependents, p.hasNPWP)
  {
    var netIncome := p.annualGrossIncome - p.allowableDeductions;
    var assessment := Assess(netIncome, p.isMarried, p.dependents, p.hasNPWP);
    r := GeneralResult(p.annualGrossIncome, p.allowableDeductions, netIncome, assessment);
  }

  // ------------------------------------------- NPPN

  /** Business types with a presumed net margin; `UnlistedBusiness` stands
      for any other tag. */
  datatype BusinessType =
    | Agriculture | Trade | Industry | Services | Freelance | Construction | OtherBusiness
    | UnlistedBusiness

  /** Presumed net margin (percent of gross turnover). */
  function GetNPPNRate(businessType: BusinessType): (margin: real)
    ensures 10.0 <= margin <= 30.0
    ensures businessType == UnlistedBusiness ==> margin == 12.5
  {
    match businessType
    case Agriculture => 14.5
    case Trade => 10.0
    case Industry => 12.5
    case Services => 17.5
    case Freelance => 30.0
    case Construction => 15.0
    case OtherBusiness => 12.5
    case UnlistedBusiness => 12.5
  }

  /** Margins range from 10% (trade) to 30% (freelance work); an unmatched
      business type is treated like "other", at 12.5%. */
  lemma NppnRateTable(businessType: BusinessType)
    ensures 10.0 <= GetNPPNRate(businessType) <= 30.0
    ensures GetNPPNRate(UnlistedBusiness) == GetNPPNRate(OtherBusiness) == 12.5
    ensures GetNPPNRate(Agriculture) == 14.5 && GetNPPNRate(Services) == 17.5
  {
  }

  datatype NppnInput = NppnInput(
    businessType: BusinessType,
    grossTurnover: real,
    isMarried: bool,
    dependents: nat,
    hasNPWP: bool)

  datatype NppnResult = NppnResult(
    grossTurnover: real,
    nppnRate: real,
    netIncome: real,
    assessment: Assessment)

  /** NPPN tax: the presumed margin of turnover is the net income, which then
      goes through the progressive assessment. */
  method CalculateNPPN(p: NppnInput) returns (r: NppnResult)
    ensures r.grossTurnover == p.grossTurnover
    ensures r.nppnRate == GetNPPNRate(p.businessType)
    ensures r.netIncome == PercentOf(p.grossTurnover, r.nppnRate)
    ensures p.grossTurnover >= 0.0 ==> 0.1 * p.grossTurnover <= r.netIncome <= 0.3 * p.grossTurnover
    ensures Assesses(r.assessment, r.netIncome, p.isMarried, p.dependents, p.hasNPWP)
  {
    var nppnRate := GetNPPNRate(p.businessType);
    var netIncome := p.grossTurnover * (nppnRate / 100.0);
    var assessment := Assess(netIncome, p.isMarried, p.dependents, p.hasNPWP);
    r := NppnResult(p.grossTurnover, nppnRate, netIncome, assessment);
  }

  // ------------------------------------------- PP 23/2018 final tax

  datatype TurnoverTaxResult = TurnoverTaxResult(grossTurnover: real, rate: real, tax: real)

  /** Final tax of 0.5% of gross turnover, with no exemption and no
      surcharge. */
  function CalculatePPh23Final(grossTurnover: real): (r: TurnoverTaxResult)
    ensures r.grossTurnover == grossTurnover && r.rate == 0.5
    ensures r.tax == 0.005 * grossTurnover
    ensures grossTurnover >= 0.0 ==> 0.0 <= r.tax <= grossTurnover
  {
    var rate := 0.5;
    TurnoverTaxResult(grossTurnover, rate, grossTurnover * (rate / 100.0))
  }

  // ------------------------------------------- final tax of Article 4(2)

  /** Income categories of the personal final tax; `UnlistedFinalIncome`
      stands for any other tag. */
  datatype FinalIncomeType =
    | LandBuildingSale | LandBuildingRent | ConstructionService | Lottery | BondsInterest
    | DepositInterest | SharesSale | InitialPublicOffering | UnlistedFinalIncome

  /** Final tax rate (percent) of an income category. */
  function GetPPh4Ayat2Rate(incomeType: FinalIncomeType): (rate: real)
    ensures 0.1 <= rate <= 25.0
    ensures incomeType == UnlistedFinalIncome ==> rate == 10.0
  {
    match incomeType
    case LandBuildingSale => 2.5
    case LandBuildingRent => 10.0
    case ConstructionService => 3.0
    case Lottery => 25.0
    case BondsInterest => 15.0
    case DepositInterest => 20.0
    case SharesSale => 0.1
    case InitialPublicOffering => 0.5
    case UnlistedFinalIncome => 10.0
  }

  /** Rates run from 0.1% (listed shares) to 25% (lottery prizes); an
      unmatched category pays 10%. */
  lemma PPh4Ayat2RateTable(incomeType: FinalIncomeType)
    ensures 0.1 <= GetPPh4Ayat2Rate(incomeType) <= 25.0
    ensures GetPPh4Ayat2Rate(UnlistedFinalIncome) == 10.0
    ensures GetPPh4Ayat2Rate(LandBuildingSale) == 2.5 && GetPPh4Ayat2Rate(InitialPublicOffering) == 0.5
  {
  }

  datatype FinalTaxResult = FinalTaxResult(amount: real, rate: real, tax: real)

  /** Personal final tax of Article 4(2): the category's rate applied to the
      amount, with no NPWP surcharge. */
  function CalculatePPh4Ayat2(incomeType: FinalIncomeType, amount: real): (r: FinalTaxResult)
    ensures r.amount == amount && r.rate == GetPPh4Ayat2Rate(incomeType)
    ensures r.tax == PercentOf(amount, r.rate)
    ensures amount >= 0.0 ==> 0.001 * amount <= r.tax <= 0.25 * amount
  {
    var rate := GetPPh4Ayat2Rate(incomeType);
    FinalTaxResult(amount, rate, PercentOf(amount, rate))
  }
}
