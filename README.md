# Personal income tax calculator, AY 2024-25 (India): a verified model

This project models `calculate_tax` from `tax_app.py`, the only part of the
calculator that holds domain logic. The function computes personal income tax
under the "old" and the "new" regime, in four steps:

1. Deductions are accumulated according to the regime. The old regime takes the
   standard deduction of 50,000 plus 80C, 80D, home-loan interest and the HRA
   exemption. The new regime takes only the standard deduction. Any other regime
   string takes nothing.
2. The taxable income is gross income less deductions, clamped at zero.
3. The slab tax is computed. The old regime uses a piecewise bracket formula.
   The new regime uses a loop over six bands. Each regime then applies a full
   rebate that zeroes the tax at or below a threshold (500,000 old, 700,000 new).
4. A 4% cess is added, and a six-field breakdown is returned.

Everything is in `tax_app.dfy`, module `TaxApp`:

- `Regime` is `Old | New | Other`; `Other` stands for any string other than
  "old" and "new", so the fall-through path is kept.
- `Deductions` holds the two optional dictionary entries for 80C and 80D as
  `Option<nat>`; `Claimed` reads an absent entry as 0, like `.get(key, 0)`.
  `NoDeductions` is the empty dictionary the source uses for `deductions=None`.
- Amounts of income and deductions are `nat`. Tax, cess and total are exact
  `real`s, so the rates 5%, 10%, 15%, 20%, 30% and 4% are exact rationals.
- A band is a `Width` and a rate. The source's `float('inf')` top band is
  `Unbounded`.
- `CalculateTax` is the source function, written step by step: the `+=`
  accumulation of deductions, the clamp, the old-regime formula, the new-regime
  band loop, the rebate overrides and the cess. The band loop is the method
  `ChargeBands`, which `CalculateTax` calls on the new-regime band list.
- `Breakdown` is the pure specification. It uses the closed form
  `NewRegimeSlabTax` for the new regime. `BandsTax` is a band-by-band reference
  definition of the loop, and `Allocation` gives the amount each band takes.
- `ChargeBands` also returns, as a ghost value, the amounts the bands took.
  The loop keeps two invariants: what was taken plus what remains is the
  taxable income, and the amounts taken followed by `Allocation` of the rest
  is the whole allocation. So the `Allocation` lemmas (each band takes at most
  its width, and an unbounded last band leaves nothing untaxed) are facts
  about the loop itself.
- `OldRegimeBands` is the old regime's bracket table (0%, 5%, 20%, 30%). It is
  used only to show that the source's formula is the marginal-bracket tax.

A worked check of the band loop (tax_app.py:43-51): a salary of 1,200,000
under the new regime leaves 1,150,000 taxable after the 50,000 standard
deduction. The loop charges 0 on the first 300,000, 15,000 on the next
300,000, 30,000 on the next 300,000 and 37,500 on the last 250,000, which is
82,500. `NewRegimeAboveRebate` states this (tax 82,500, cess 3,300, total
85,800).

## Model

| member | source | states |
|---|---|---|
| `TaxApp.CalculateTax` | tax_app.py:4-65 | The breakdown computed step by step equals `Breakdown(inputs)`: deductions by regime, taxable income clamped at zero, the regime's slab tax with its rebate override, a 4% cess and the total |
| `TaxApp.ChargeBands` | tax_app.py:43-51 | The band loop, with its early `break` once nothing remains, returns the band-by-band tax `BandsTax(slabs, taxableIncome)`. The amounts it takes are `Allocation(slabs, taxableIncome)`: no band takes more than its width, and with an unbounded last band they add up to the taxable income. Its invariants: tax so far plus the tax of the rest is the total, and amounts taken plus what remains is the taxable income |
| `TaxApp.Take` | tax_app.py:49 | The amount a band takes is at most what remains and at most the band's width, and equals one of the two (the minimum); an unbounded band takes everything |
| `TaxApp.AllocationWithinBands` | tax_app.py:43-51 | Each band takes at most its width, and there is at most one amount per band |
| `TaxApp.AllocationCoversIncome` | tax_app.py:43-51 | When the last band is unbounded, the amounts the bands take sum to the whole taxable income, so nothing is left untaxed |
| `TaxApp.BandsTaxIsWeightedAllocation` | tax_app.py:45-51 | The tax the loop accumulates is the sum over bands of the amount in the band times the band's rate |
| `TaxApp.NewRegimeAllocation` | tax_app.py:43-51 | On the new-regime list the five 300,000 bands each take at most 300,000, the amounts taken add up to the taxable income, and the loop's tax is the amount in each band times its rate |
| `TaxApp.NewRegimeClosedForm` | tax_app.py:43-51 | On every taxable income the new-regime band loop equals the marginal closed form: 0% to 300,000, then 5%, 10%, 15%, 20% per 300,000 band and 30% above 1,500,000 |
| `TaxApp.OldBracketIsMarginal` | tax_app.py:31-39 | The source's old-regime formula equals the marginal-bracket tax over 0-250,000 at 0%, 250,000-500,000 at 5%, 500,000-1,000,000 at 20% and 30% above, on every taxable income, including the branch boundaries 500,000 and 1,000,000 |
| `TaxApp.SlabTaxMonotone` | tax_app.py:31-51 | Before the rebate, a larger taxable income never pays less slab tax, under either regime's schedule |
| `TaxApp.BreakdownInvariants` | tax_app.py:15-65 | Gross income is salary plus other income; taxable income is max(0, gross - deductions) and at most gross; tax is non-negative; cess is exactly 4% of the tax; total payable is tax plus cess |
| `TaxApp.TaxAtMostTopRate` | tax_app.py:30-53 | The tax before cess never exceeds 30% of the taxable income |
| `TaxApp.OldRegimeDeductions` | tax_app.py:19-24 | Old regime: deductions are 50,000 + 80C + 80D + home-loan interest + HRA exemption, and with no 80C or 80D entry they are 50,000 + home-loan interest + HRA exemption |
| `TaxApp.NewRegimeIgnoresDeductions` | tax_app.py:17-53 | New regime: deductions are exactly 50,000, and two inputs with the same incomes give the same breakdown whatever their 80C, 80D, HRA and home-loan figures |
| `TaxApp.OldRegimeRebate` | tax_app.py:31-41 | Old regime: the tax is zero if and only if taxable income is at most 500,000, the total payable is then zero, and above it the tax is the marginal-bracket tax |
| `TaxApp.NewRegimeRebate` | tax_app.py:42-53 | New regime: the tax is zero if and only if taxable income is at most 700,000, the total payable is then zero, and above it the tax is the band loop's tax |
| `TaxApp.OtherRegimeOwesNothing` | tax_app.py:17-30 | A regime other than old and new deducts nothing, so taxable income is gross income, and tax, cess and total are zero |
| `TaxApp.NewRegimeWithinRebate` | tax_app.py:4-65 | Salary 600,000 under the new regime: deductions 50,000, taxable 550,000, and the rebate zeroes tax, cess and total |
| `TaxApp.NewRegimeAboveRebate` | tax_app.py:4-65 | Salary 1,200,000 under the new regime with the default arguments: taxable 1,150,000, tax 82,500, cess 3,300, total 85,800 |
| `TaxApp.OldRegimeAboveRebate` | tax_app.py:4-65 | Salary 900,000 under the old regime with 150,000 of 80C and 25,000 of 80D: deductions 225,000, taxable 675,000, tax 47,500, cess 1,900, total 49,400 |

## Left out

- The Streamlit interface (tax_app.py:1, 67-102): page setup, input widgets, the button and the currency formatting of the results. It is input and output only.
- The 150,000 cap on 80C: only the input widget enforces it (tax_app.py:80), so the model accepts any 80C amount, as `calculate_tax` does.
- Negative and fractional amounts: the model takes incomes and deductions as `nat`, because the input widgets (tax_app.py:74-83) supply only whole numbers from a minimum of 0 with integer steps; `calculate_tax` itself would accept negative or fractional values.
- Floating point: the source multiplies by binary floating-point rates; the model uses exact rationals, so it does not reproduce rounding in the last place. The tax is also not split into Python's `int` 0 and `float` cases.
- Dictionary keys other than '80C' and '80D': the source never reads them, and the model's deductions record has no place for them.
- The string regime selector and the returned dictionary: they are the `Regime` and `TaxBreakdown` datatypes here, with one field per dictionary entry.
