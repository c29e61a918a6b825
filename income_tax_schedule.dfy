/** The two schedules shared by the employee withholding tax (PPh 21), the
    general personal income tax and the NPPN net-margin tax:

    - the PTKP exemption (penghasilan tidak kena pajak): 54,000,000 for the
      taxpayer, 4,500,000 more when married and 4,500,000 per dependent, at
      most three dependents;
    - the progressive brackets of Article 17 of the Income Tax Law (UU PPh):
      5% up to 50,000,000, 15% up to 250,000,000, 25% up to 500,000,000 and
      30% above.

    The bracket tax is given in closed form (`BracketTax`) and band by band
    (`BandShare`, `BandTax`); `BandTaxesSumToBracketTax` proves the two agree. */
module IncomeTaxSchedule {

  import opened TaxCommon

  const PtkpBase: real := 54_000_000.0
  const PtkpStep: real := 4_500_000.0
  const MaxCountedDependents: nat := 3

  /** Annual tax-free allowance for a taxpayer with the given status. */
  function Ptkp(isMarried: bool, dependents: nat): (r: real)
    ensures PtkpBase <= r <= PtkpBase + 4.0 * PtkpStep
    ensures isMarried ==> r >= PtkpBase + PtkpStep
  {
    var counted := if dependents < MaxCountedDependents then dependents else MaxCountedDependents;
    PtkpBase + (if isMarried then PtkpStep else 0.0) + counted as real * PtkpStep
  }

  /** Each dependent up to the third adds one step, later ones add nothing,
      and marriage adds one step. */
  lemma PtkpSchedule(isMarried: bool, dependents: nat)
    ensures Ptkp(isMarried, dependents + 1) ==
            Ptkp(isMarried, dependents) + (if dependents < MaxCountedDependents then PtkpStep else 0.0)
    ensures dependents >= MaxCountedDependents ==> Ptkp(isMarried, dependents) == Ptkp(isMarried, MaxCountedDependents)
    ensures Ptkp(true, dependents) == Ptkp(false, dependents) + PtkpStep
    ensures Ptkp(false, 0) == 54_000_000.0
    ensures Ptkp(true, 2) == 67_500_000.0
  {
  }

  /** Lower edges of the four bands and their marginal rates in percent. */
  const BandFloors: seq<real> := [0.0, 50_000_000.0, 250_000_000.0, 500_000_000.0]
  const BandRates: seq<real> := [5.0, 15.0, 25.0, 30.0]
  const BandCount: nat := 4

  /** Closed-form Article 17 tax on an annual taxable income: the tax of every
      lower band in full plus the marginal rate on the part above the floor of
      the band the income falls in. Nothing is due on a non-positive income. */
  function BracketTax(taxableIncome: real): (tax: real)
    ensures taxableIncome <= 0.0 ==> tax == 0.0
    ensures taxableIncome > 0.0 ==> 0.05 * taxableIncome <= tax <= 0.30 * taxableIncome
  {
    if taxableIncome <= 0.0 then 0.0
    else if taxableIncome <= 50_000_000.0 then
      taxableIncome * 0.05
    else if taxableIncome <= 250_000_000.0 then
      50_000_000.0 * 0.05 + (taxableIncome - 50_000_000.0) * 0.15
    else if taxableIncome <= 500_000_000.0 then
      50_000_000.0 * 0.05 + 200_000_000.0 * 0.15 + (taxableIncome - 250_000_000.0) * 0.25
    else
      50_000_000.0 * 0.05 + 200_000_000.0 * 0.15 + 250_000_000.0 * 0.25 + (taxableIncome - 500_000_000.0) * 0.30
  }

  /** Inside band `k` the tax grows at exactly that band's rate from the
      tax due at the band's floor: the schedule is continuous at every edge
      and its marginal rate steps up from band to band. */
  lemma BracketTaxOnBand(k: nat, x: real)
    requires k < BandCount
    requires BandFloors[k] <= x
    requires k + 1 < BandCount ==> x <= BandFloors[k + 1]
    ensures BracketTax(x) == BracketTax(BandFloors[k]) + BandRates[k] / 100.0 * (x - BandFloors[k])
    ensures k + 1 < BandCount ==> BandRates[k] < BandRates[k + 1]
  {
  }

  /** Raising the taxable income by `d` raises the tax by at least 5% and at
      most 30% of `d`: the tax is non-decreasing and continuous. */
  lemma BracketTaxMarginal(a: real, b: real)
    requires 0.0 <= a <= b
    ensures 0.05 * (b - a) <= BracketTax(b) - BracketTax(a) <= 0.30 * (b - a)
  {
  }

  /** The worked example: 114,000,000 of taxable income owes 12,100,000. */
  lemma BracketTaxExample()
    ensures BracketTax(114_000_000.0) == 12_100_000.0
  {
  }

  /** Portion of `taxableIncome` falling in band `k`: nothing below the
      floor, at most the band's width, and everything above the floor in the
      open top band. */
  function BandShare(taxableIncome: real, k: nat): (share: real)
    requires k < BandCount
    ensures share >= 0.0
    ensures k + 1 < BandCount ==> share <= BandFloors[k + 1] - BandFloors[k]
    ensures taxableIncome <= BandFloors[k] ==> share == 0.0
  {
    var above := Max(0.0, taxableIncome - BandFloors[k]);
    if k + 1 < BandCount then Min(above, BandFloors[k + 1] - BandFloors[k]) else above
  }

  /** Tax on the part of the income in band `k`. */
  function BandTax(taxableIncome: real, k: nat): (tax: real)
    requires k < BandCount
    ensures tax >= 0.0
  {
    PercentOf(BandShare(taxableIncome, k), BandRates[k])
  }

  /** The four band shares split a positive taxable income exactly. */
  lemma BandSharesPartitionIncome(taxableIncome: real)
    requires taxableIncome > 0.0
    ensures BandShare(taxableIncome, 0) + BandShare(taxableIncome, 1)
          + BandShare(taxableIncome, 2) + BandShare(taxableIncome, 3) == taxableIncome
  {
  }

  /** Summing the band taxes gives the closed-form bracket tax. */
  lemma BandTaxesSumToBracketTax(taxableIncome: real)
    requires taxableIncome >= 0.0
    ensures BandTax(taxableIncome, 0) + BandTax(taxableIncome, 1)
          + BandTax(taxableIncome, 2) + BandTax(taxableIncome, 3) == BracketTax(taxableIncome)
  {
  }
}
